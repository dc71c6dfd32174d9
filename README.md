# Interrupt path of the LK kernel on QEMU MIPS, in Dafny

This project models how the LK kernel on the QEMU MIPS board takes an
interrupt from the trap to the handler and the acknowledgment. Two pieces of
code are modelled:

- **The driver for the cascaded pair of Intel 8259A interrupt controllers**
  (`platform/qemu-mips/intc.c`). It sends the ICW1–ICW4 initialisation
  handshake, keeps a cached copy `irqMask[2]` of the two interrupt mask
  registers (IMR), enables and disables single lines, and re-evaluates the
  cascade line (master line 2) after every slave-side enable call, whether
  or not that call changed the slave mask. It
  acknowledges interrupts with the OCW2 non-specific EOI command `0x20`:
  one chip for a master vector, the slave and then the master for a slave
  vector. It also owns the handler table `int_handler_table`.
- **The MIPS trap entry points** (`arch/mips/exceptions.c`).
  `mips_gen_exception` reads the ExcCode field (bits 6..2) of the saved
  Cause register. A system call (`Sys`, code 8) resumes after the `syscall`
  instruction; every other code stops the CPU. `mips_irq` sends CPU
  interrupt line 2 to `platform_irq` and turns the handler's answer into a
  preemption request.

Files:

- `pic_spec.dfy`, module `PicSpec`. The controller protocol as pure
  functions over a value `Chips`: the two cached masks, the two hardware
  IMRs and a trace. The trace lists port writes and handler calls in the
  order they happen.
- `intc.dfy`, module `Intc`. Class `Board` is the ISA side: the two data
  ports are plain byte registers, and every port write is appended to the
  trace. Class `Pic` holds the driver's globals: the `irqMask` array, the
  handler table array and `vectors` (`INT_VECTORS`). Each method that touches
  the masks or the ports is proved to change `State()` exactly as the
  matching `PicSpec` function says. `PlatformIrq` appends the handler call and
  the EOI writes and leaves the masks alone. `RegisterIntHandler` changes
  only the handler table, one slot.
- `pic_properties.dfy`, module `PicProperties`. What those functions
  guarantee: bit-level effects, the order of port writes, the round trip,
  and cache/hardware agreement over any sequence of the five mask and EOI
  calls (`Op`: init, mask, unmask, mask-all, EOI).
- `exceptions.dfy`, module `MipsExceptions`. Class `IFrame` holds the saved
  Status, Cause and EPC. This module has `ExcCode`, `GenException`, `Irq`,
  and an end-to-end run on a fresh board.

Widths are explicit: masks and port values are `bv8`; Cause, Status and
EPC are `bv32`, so `epc + 4` wraps at 2^32 as the C `uint32_t` does.

### Where the code and the intended design differ

The driver evidently means the cascade line to be masked exactly when
every slave line is masked. Its first cascade test,
`platform/qemu-mips/intc.c:127`, unmasks the cascade line as soon as the
slave mask is not `0xff`. Its second test, `platform/qemu-mips/intc.c:132`,
checks `irqMask[1] == 0`, where `== 0xff` would mirror the first. The model
follows the code:

- `PicProperties.EnableSlave` states the cascade bit's actual rule. If the
  bit was set, it stays set only when the slave mask is `0xFF`. If it was
  clear, it becomes set exactly when the slave mask is `0x00`.
- `CascadeStaysEnabledOnFullSlaveMask` and `CascadeMaskedOnEmptySlaveMask`
  show two concrete states where the intended rule fails.
- `CascadeMaskedAfterUnmaskingSlave` shows that the second of these states
  is reached by the public calls: after init, unmasking vectors 8 to 15 in
  turn leaves every slave line enabled and the cascade line masked, so no
  slave interrupt reaches the CPU.
- `SlaveEnableNotIdempotent` shows a third consequence. With every slave
  line enabled, each further slave-side unmask flips the cascade bit.

For the same reason, the mask/unmask round trip is proved for master
vectors only. For a slave vector it restores the slave mask, but the cascade
bit can change; `SlaveRoundTripMovesCascade` shows a state where it does.

## Model

| member | source | states |
|---|---|---|
| `PicProperties.InitHandshake` | platform/qemu-mips/intc.c:64-88 | with bases 0 and 8 the trace gains exactly the ten writes (0x20,0x11) (0xA0,0x11) (0x21,0) (0xA1,8) (0x21,4) (0xA1,2) (0x21,5) (0xA1,1) (0x21,0xFF) (0xA1,0xFF), and both caches and both IMRs end at 0xFF, from any state |
| `PicProperties.LineBitIsShift` | platform/qemu-mips/intc.c:95 | the per-line mask bit used by the model equals `1 << line` |
| `PicProperties.EnableMaster` | platform/qemu-mips/intc.c:92-107 | for a master vector: bit v ends masked iff the request was "disable"; every other master bit and the whole slave mask are unchanged; cache equals hardware after; one write to 0x21 when the bit had to change, none when it was already in the requested state |
| `PicProperties.MaskUnmaskRoundTrip` | platform/qemu-mips/intc.c:159-204 | for an enabled master line inside the table, mask then unmask both return NO_ERROR, restore both caches and both IMRs, and leave exactly two writes: the masked value, then the original |
| `PicProperties.EnableMasterIdempotent` | platform/qemu-mips/intc.c:97-107 | repeating a master-side enable with the same request changes nothing more |
| `PicProperties.SlaveLineStep` | platform/qemu-mips/intc.c:108-123 | the slave half of a slave-side enable: slave bit v-8 takes the requested state, the other slave bits and the master are unchanged, and one write to 0xA1 happens iff the slave mask changed |
| `PicProperties.CascadeStep` | platform/qemu-mips/intc.c:125-137 | the cascade re-evaluation changes only master bit 2: a set bit is cleared unless the slave mask is 0xFF; a clear bit is set iff the slave mask is 0x00; one write to 0x21 iff the master changed |
| `PicProperties.EnableSlave` | platform/qemu-mips/intc.c:108-137 | for a slave vector: slave bit v-8 takes the requested state, the other slave bits and every master bit but bit 2 keep theirs, bit 2 follows the rule as written (kept set only for slave 0xFF, newly set only for slave 0x00), cache equals hardware, and the slave write comes before the master write |
| `PicProperties.CascadeStaysEnabledOnFullSlaveMask` | platform/qemu-mips/intc.c:127-137 | a concrete state where disabling the last enabled slave line leaves the slave mask 0xFF with the cascade line still enabled |
| `PicProperties.CascadeMaskedOnEmptySlaveMask` | platform/qemu-mips/intc.c:132-136 | a concrete state where enabling the last disabled slave line masks the cascade line |
| `PicProperties.CascadeMaskedAfterUnmaskingSlave` | platform/qemu-mips/intc.c:132-136 | from any state, init followed by unmasking vectors 8 to 15 in turn leaves the slave mask and IMR at 0x00 and the cascade line masked |
| `PicProperties.SlaveEnableNotIdempotent` | platform/qemu-mips/intc.c:125-137 | with every slave line enabled, two identical slave-side enables first mask and then unmask the cascade line |
| `PicProperties.SlaveRoundTripMovesCascade` | platform/qemu-mips/intc.c:108-137 | from slave mask 0x00 with the cascade line enabled, mask(8) then unmask(8) both return NO_ERROR and restore the slave mask, but leave the cascade line masked on the master |
| `PicProperties.EnableOutOfRange` | platform/qemu-mips/intc.c:138-140 | enable with a vector of 16 or more changes no mask and writes no port |
| `PicProperties.SetMaskedStatus` | platform/qemu-mips/intc.c:159-174 | mask/unmask return ERR_INVALID_ARGS iff vector >= INT_VECTORS, and then change nothing; otherwise NO_ERROR |
| `PicProperties.EoiProtocol` | platform/qemu-mips/intc.c:143-151 | issueEOI changes no mask; a master vector writes exactly one (0x20, 0x20); a slave vector writes exactly (0xA0, 0x20) then (0x20, 0x20); vectors of 16 or more write nothing |
| `PicProperties.MaskAllQuiesces` | platform/qemu-mips/intc.c:177-187 | platform_mask_irqs leaves both caches and IMRs at 0xFF from any state, writing 0xFF to 0x21 then 0xA1 |
| `PicProperties.EnableCoherent` | platform/qemu-mips/intc.c:90-141 | if the cache equals the hardware before enable, it does after |
| `PicProperties.StepKeepsCoherent` | platform/qemu-mips/intc.c:90-204 | each of platform_init_interrupts, mask_interrupt, unmask_interrupt, platform_mask_irqs and issueEOI keeps the cache equal to the hardware; init and platform_mask_irqs establish it from any state |
| `PicProperties.RunKeepsCoherent` | platform/qemu-mips/intc.c:153-204 | after init, any sequence of platform_init_interrupts, mask_interrupt, unmask_interrupt, platform_mask_irqs and issueEOI calls leaves the cached masks equal to the IMRs |
| `PicProperties.EnableExtends` | platform/qemu-mips/intc.c:90-141 | enable only appends to the trace, and each appended event is a write to one of the four controller ports (which of the two data ports, and in what order, is stated by `EnableMaster` and `EnableSlave`) |
| `PicProperties.StepExtends` | platform/qemu-mips/intc.c:64-204 | each of platform_init_interrupts, mask_interrupt, unmask_interrupt, platform_mask_irqs and issueEOI only appends writes to the ports 0x20, 0x21, 0xA0 and 0xA1 |
| `PicProperties.RunExtends` | platform/qemu-mips/intc.c:64-204 | over any sequence of platform_init_interrupts, mask_interrupt, unmask_interrupt, platform_mask_irqs and issueEOI calls the trace is append-only and every new event is a write to one of the four controller ports |
| `PicProperties.RegisterThenDispatch` | platform/qemu-mips/intc.c:206-236 | after registering (h, a) at v, only slot v changed, and delivering v calls h with a exactly once and returns h's answer |
| `PicProperties.EmptySlotIsIgnored` | platform/qemu-mips/intc.c:213-216 | a null slot calls nothing and yields INT_NO_RESCHEDULE |
| `PicProperties.WithBitSame` | platform/qemu-mips/intc.c:97-106 | setting or clearing a line's bit gives that line the requested state and keeps every other line's bit |
| `Intc.Pic.constructor` | platform/qemu-mips/intc.c:54-59 | before any call the cache is zero and every handler slot is null |
| `Intc.Pic.Map` | platform/qemu-mips/intc.c:64-88 | the driver's map changes the state exactly as the handshake function: the ten writes, then caches and IMRs at 0xFF |
| `Intc.Pic.RewriteMasterMask` | platform/qemu-mips/intc.c:98-101 | read the master IMR, change one bit, write it to 0x21, read it back into irqMask[0] |
| `Intc.Pic.RewriteSlaveMask` | platform/qemu-mips/intc.c:114-117 | the same for the slave IMR, 0xA1 and irqMask[1] |
| `Intc.Pic.EnableMasterLine` | platform/qemu-mips/intc.c:92-107 | the master branch of enable, with the register rewritten only when the cached bit differs |
| `Intc.Pic.EnableSlaveLine` | platform/qemu-mips/intc.c:108-123 | the slave branch of enable before the cascade step |
| `Intc.Pic.ReevaluateCascade` | platform/qemu-mips/intc.c:125-137 | the cascade re-evaluation with its two tests as written |
| `Intc.Pic.Enable` | platform/qemu-mips/intc.c:90-141 | enable changes the state exactly as the spec function whose properties are proved above |
| `Intc.Pic.IssueEoi` | platform/qemu-mips/intc.c:143-151 | issueEOI appends its EOI writes and changes no mask |
| `Intc.Pic.PlatformInitInterrupts` | platform/qemu-mips/intc.c:153-157 | after init both irqMask entries and both IMRs are 0xFF and the trace gained exactly the ten handshake writes in order |
| `Intc.Pic.MaskInterrupt` | platform/qemu-mips/intc.c:159-174 | returns ERR_INVALID_ARGS and changes nothing for vector >= INT_VECTORS, otherwise disables the line and returns NO_ERROR |
| `Intc.Pic.PlatformMaskIrqs` | platform/qemu-mips/intc.c:177-187 | both caches and IMRs become 0xFF after writing 0xFF to 0x21 and then 0xA1 |
| `Intc.Pic.UnmaskInterrupt` | platform/qemu-mips/intc.c:189-204 | returns ERR_INVALID_ARGS and changes nothing for vector >= INT_VECTORS, otherwise enables the line and returns NO_ERROR |
| `Intc.Pic.PlatformIrq` | platform/qemu-mips/intc.c:206-222 | calls the stored handler with the stored arg once if it is non-null and returns its answer, otherwise INT_NO_RESCHEDULE; the EOI writes follow the call in the trace; masks unchanged |
| `Intc.Pic.RegisterIntHandler` | platform/qemu-mips/intc.c:224-236 | for a vector inside the table, slot `vector` becomes (handler, arg) and every other slot keeps its entry |
| `MipsExceptions.ExcCode` | arch/mips/exceptions.c:36 | the code is below 32 and, shifted back by 2, equals bits 6..2 of Cause |
| `MipsExceptions.GenException` | arch/mips/exceptions.c:34-47 | for ExcCode 8 it returns with EPC advanced by 4 (mod 2^32); for any other code it halts with the frame untouched; Status and Cause never change |
| `MipsExceptions.Irq` | arch/mips/exceptions.c:49-65 | only CPU line 2 reaches platform_irq (handler call, then EOI writes); every other line, 7 included, changes nothing and asks for no preemption; preemption is requested iff the result is not INT_NO_RESCHEDULE |
| `MipsExceptions.LineTwoEndToEnd` | arch/mips/exceptions.c:54-57 | with (h, a) in slot 2, line 2 produces exactly the call of h with a and then one master EOI (0x20, 0x20); preemption iff h asks to reschedule |
| `MipsExceptions.DeliverLineTwo` | arch/mips/exceptions.c:49-65 | on a fresh board, init, register (h, a) at 2, unmask 2 and take line 2: the trace is the handshake, (0x21, 0xFB), the call of h with a, and (0x20, 0x20); preemption iff h asks for it |

## Left out

- `arch/riscv/include/arch/arch_ops.h` is not part of this model. It holds inline assembly, CSR accesses, relaxed atomics, fences and the thread pointer, with no logic of its own.
- The spin lock around each public call is not modelled. Each call is one atomic step, and concurrency and interrupt-state save/restore are out of scope.
- Port I/O is not modelled as real hardware. The two data ports are plain byte registers and the command ports are write-only. The chips' internal registers, device timing and side effects are left out. A real 8259 takes the ICW2–ICW4 data-port writes into its initialisation registers, not into the IMR. In this model they pass through the IMR, which holds 0xFF once the handshake ends.
- Handler bodies are left out. A handler is an identity, and its answer is the function parameter `call`. A handler that calls back into the driver is not modelled.
- `thread_preempt` is left out and is the boolean result `preempt`. `THREAD_STATS_INC`, `LTRACEF` and the text of `panic` are left out too, since they are statistics and logging.
- The `panic` in `register_int_handler` is modelled as the precondition `vector < vectors`.
- The `for (;;);` spin of `mips_gen_exception` is modelled as the outcome `Halted`, not as divergence.
- The commented-out timer call of `mips_irq` is left out, so line 7 behaves like any other ignored line.
- The `iframe` argument of `platform_irq` and `mips_irq` is left out. Those functions only trace it.
- `INT_VECTORS` comes from a header that is not part of this model, so it is the parameter `Pic.vectors`. The scenario `DeliverLineTwo` picks 16.
- Vectors are `unsigned int` in C and `nat` here. A vector of 2^32 or more cannot occur in C, and every such vector takes the out-of-range paths.
- `MipsExceptions.Irq` requires `vectors > 2` when `num == 2`. `platform_irq` indexes the table without a check, and a smaller table would be undefined behaviour in C.
- `Intc.Pic.PlatformIrq` requires `vector < vectors`. `platform_irq` indexes the handler table without a range check, so a larger vector is undefined behaviour in C.
- `platform_irq` and `register_int_handler` are not among the calls of `PicSpec.Op`, so `RunKeepsCoherent` and `RunExtends` do not cover them. `PlatformIrq` leaves the masks alone and appends a handler call before its EOI writes, as its own contract states. `RegisterIntHandler` touches only the handler table.
