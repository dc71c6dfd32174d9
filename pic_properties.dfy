/** What the controller protocol of PicSpec guarantees, call by call and
    over whole sequences of calls. */
module PicProperties {
  import opened PicSpec

  /** The handshake `platform_init_interrupts` sends (intc.c:64-88,
      153-157), written out byte by byte: afterwards both caches and both
      registers hold 0xFF, from any state. */
  lemma InitHandshake(s: Chips)
    ensures var t := Map(s, PIC1_BASE as bv32, PIC2_BASE as bv32);
      && t.cacheMaster == t.cacheSlave == t.imrMaster == t.imrSlave == 0xFF
      && t.trace == s.trace + [
           PortWrite(0x20, 0x11), PortWrite(0xA0, 0x11),
           PortWrite(0x21, 0), PortWrite(0xA1, 8),
           PortWrite(0x21, 4), PortWrite(0xA1, 2),
           PortWrite(0x21, 5), PortWrite(0xA1, 1),
           PortWrite(0x21, 0xFF), PortWrite(0xA1, 0xFF)]
  {
  }

  /** The mask bit of line `line` is `1 << line`, as intc.c:95 and 111
      compute it. */
  lemma LineBitIsShift(line: nat)
    requires line < 8
    ensures LineBit(line) == (1 as bv8) << line
  {
  }

  /** Changing the bit of one line leaves the bit of every other line. */
  lemma WithBitOther(m: bv8, line: nat, i: nat, masked: bool)
    requires line < 8 && i < 8 && i != line
    ensures IsMasked(WithBit(m, LineBit(line), masked), i) == IsMasked(m, i)
  {
  }

  /** ... and gives that line the requested state. */
  lemma WithBitSame(m: bv8, line: nat, masked: bool)
    requires line < 8
    ensures IsMasked(WithBit(m, LineBit(line), masked), line) == masked
    ensures forall i :: 0 <= i < 8 && i != line ==> IsMasked(WithBit(m, LineBit(line), masked), i) == IsMasked(m, i)
  {
    forall i | 0 <= i < 8 && i != line
      ensures IsMasked(WithBit(m, LineBit(line), masked), i) == IsMasked(m, i)
    {
      WithBitOther(m, line, i, masked);
    }
  }

  /** A read-modify-write-reread of the master gives line `line` the
      requested state, keeps the other lines of the hardware register, and
      leaves cache and register equal. */
  lemma RewriteMasterEffect(s: Chips, line: nat, masked: bool)
    requires line < 8
    ensures RewriteMaster(s, LineBit(line), masked).cacheMaster == RewriteMaster(s, LineBit(line), masked).imrMaster
    ensures IsMasked(RewriteMaster(s, LineBit(line), masked).cacheMaster, line) == masked
    ensures forall i :: 0 <= i < 8 && i != line ==>
              IsMasked(RewriteMaster(s, LineBit(line), masked).cacheMaster, i) == IsMasked(s.imrMaster, i)
  {
    WithBitSame(s.imrMaster, line, masked);
  }

  /** The same on the slave. */
  lemma RewriteSlaveEffect(s: Chips, line: nat, masked: bool)
    requires line < 8
    ensures RewriteSlave(s, LineBit(line), masked).cacheSlave == RewriteSlave(s, LineBit(line), masked).imrSlave
    ensures IsMasked(RewriteSlave(s, LineBit(line), masked).cacheSlave, line) == masked
    ensures forall i :: 0 <= i < 8 && i != line ==>
              IsMasked(RewriteSlave(s, LineBit(line), masked).cacheSlave, i) == IsMasked(s.imrSlave, i)
  {
    WithBitSame(s.imrSlave, line, masked);
  }

  /** A master-side `enable` (intc.c:92-107) sets line `v`'s bit to the
      requested state and no other bit of either chip; it writes the master
      data port once if the bit had to change and not at all otherwise. */
  lemma EnableMaster(s: Chips, v: nat, e: bool)
    requires Coherent(s) && v < 8
    ensures Coherent(Enable(s, v, e))
    ensures IsMasked(Enable(s, v, e).cacheMaster, v) == !e
    ensures forall i :: 0 <= i < 8 && i != v ==>
              IsMasked(Enable(s, v, e).cacheMaster, i) == IsMasked(s.cacheMaster, i)
    ensures Enable(s, v, e).cacheSlave == s.cacheSlave
    ensures Enable(s, v, e).trace == s.trace +
              (if IsMasked(s.cacheMaster, v) == !e then [] else [PortWrite(PIC1_DATA, Enable(s, v, e).cacheMaster)])
  {
    EnableMasterShape(s, v, e);
    RewriteMasterEffect(s, v, !e);
  }

  /** A master-side `enable` rewrites the master register exactly when the
      cached bit differs from the request. */
  lemma EnableMasterShape(s: Chips, v: nat, e: bool)
    requires v < 8
    ensures Enable(s, v, e) == if IsMasked(s.cacheMaster, v) == !e then s else RewriteMaster(s, LineBit(v), !e)
  {
  }

  /** Masking an enabled master line and unmasking it again restores both
      masks and leaves two writes behind (intc.c:97-107, 159-204). */
  lemma MaskUnmaskRoundTrip(s: Chips, vectors: nat, v: nat)
    requires Coherent(s) && v < 8 && v < vectors && !IsMasked(s.cacheMaster, v)
    ensures var (st1, t) := SetMasked(s, vectors, v, true);
      var (st2, u) := SetMasked(t, vectors, v, false);
      && st1 == NoError && st2 == NoError
      && u.cacheMaster == s.cacheMaster && u.cacheSlave == s.cacheSlave
      && u.imrMaster == s.imrMaster && u.imrSlave == s.imrSlave
      && u.trace == s.trace + [PortWrite(PIC1_DATA, s.cacheMaster | LineBit(v)), PortWrite(PIC1_DATA, s.cacheMaster)]
  {
    var t := Enable(s, v, false);
    EnableMaster(s, v, false);
    EnableMasterShape(s, v, false);
    EnableMasterShape(t, v, true);
    WithBitUndo(s.imrMaster, LineBit(v));
  }

  /** Setting a clear bit and clearing it again gives the mask back. */
  lemma WithBitUndo(m: bv8, bit: bv8)
    requires m & bit == 0
    ensures WithBit(WithBit(m, bit, true), bit, false) == m
  {
  }

  /** A master-side `enable` repeated with the same request does nothing
      more. */
  lemma EnableMasterIdempotent(s: Chips, v: nat, e: bool)
    requires v < 8
    ensures Enable(Enable(s, v, e), v, e) == Enable(s, v, e)
  {
  }

  /** A slave-side `enable` (intc.c:108-137): line `v - 8` of the slave
      takes the requested state, the other slave bits and every master bit
      but the cascade bit keep theirs. The cascade bit follows the code as
      written: if it was set it stays set only when the slave is now fully
      masked; if it was clear it becomes set exactly when the slave is now
      fully enabled (0x00). The slave write, when there is one, comes before
      the master write. */
  lemma EnableSlave(s: Chips, v: nat, e: bool)
    requires Coherent(s) && 8 <= v < 16
    ensures Coherent(Enable(s, v, e))
    ensures IsMasked(Enable(s, v, e).cacheSlave, v - 8) == !e
    ensures forall i :: 0 <= i < 8 && i != v - 8 ==>
              IsMasked(Enable(s, v, e).cacheSlave, i) == IsMasked(s.cacheSlave, i)
    ensures forall i :: 0 <= i < 8 && i != INT_PIC2 ==>
              IsMasked(Enable(s, v, e).cacheMaster, i) == IsMasked(s.cacheMaster, i)
    ensures IsMasked(Enable(s, v, e).cacheMaster, INT_PIC2) <==>
              if IsMasked(s.cacheMaster, INT_PIC2) then Enable(s, v, e).cacheSlave == 0xFF
              else Enable(s, v, e).cacheSlave == 0
    ensures Enable(s, v, e).trace == s.trace
              + (if Enable(s, v, e).cacheSlave == s.cacheSlave then [] else [PortWrite(PIC2_DATA, Enable(s, v, e).cacheSlave)])
              + (if Enable(s, v, e).cacheMaster == s.cacheMaster then [] else [PortWrite(PIC1_DATA, Enable(s, v, e).cacheMaster)])
  {
    var m := EnableOnSlave(s, v - 8, e);
    SlaveLineStep(s, v - 8, e);
    CascadeStep(m);
    assert Enable(s, v, e) == Cascade(m);
  }

  /** The slave half of a slave-side `enable`, before the cascade is
      looked at (intc.c:109-123). */
  lemma SlaveLineStep(s: Chips, line: nat, e: bool)
    requires Coherent(s) && line < 8
    ensures Coherent(EnableOnSlave(s, line, e))
    ensures EnableOnSlave(s, line, e).cacheMaster == s.cacheMaster
    ensures IsMasked(EnableOnSlave(s, line, e).cacheSlave, line) == !e
    ensures forall i :: 0 <= i < 8 && i != line ==>
              IsMasked(EnableOnSlave(s, line, e).cacheSlave, i) == IsMasked(s.cacheSlave, i)
    ensures EnableOnSlave(s, line, e).trace == s.trace
              + (if EnableOnSlave(s, line, e).cacheSlave == s.cacheSlave then [] else [PortWrite(PIC2_DATA, EnableOnSlave(s, line, e).cacheSlave)])
  {
    assert EnableOnSlave(s, line, e) ==
      if IsMasked(s.cacheSlave, line) == !e then s else RewriteSlave(s, LineBit(line), !e);
    RewriteSlaveEffect(s, line, !e);
  }

  /** The cascade re-evaluation changes the cascade bit of the master and
      nothing else but the trace, to which it adds the master write if the
      bit changed. */
  lemma CascadeStep(s: Chips)
    requires Coherent(s)
    ensures var t := Cascade(s);
      && Coherent(t)
      && t.cacheSlave == s.cacheSlave
      && (forall i :: 0 <= i < 8 && i != INT_PIC2 ==> IsMasked(t.cacheMaster, i) == IsMasked(s.cacheMaster, i))
      && (IsMasked(t.cacheMaster, INT_PIC2) <==>
            if IsMasked(s.cacheMaster, INT_PIC2) then s.cacheSlave == 0xFF else s.cacheSlave == 0)
      && t.trace == s.trace + (if t.cacheMaster == s.cacheMaster then [] else [PortWrite(PIC1_DATA, t.cacheMaster)])
  {
    assert CASCADE_BIT == LineBit(INT_PIC2);
    RewriteMasterEffect(s, INT_PIC2, false);
    RewriteMasterEffect(s, INT_PIC2, true);
  }

  /** The cascade bit is not a function of the slave mask: disabling the
      last enabled slave line leaves the cascade line enabled. */
  lemma CascadeStaysEnabledOnFullSlaveMask()
    ensures var s := Chips(0xFB, 0xFE, 0xFB, 0xFE, []);
      var t := Enable(s, 8, false);
      t.cacheSlave == 0xFF && !IsMasked(t.cacheMaster, INT_PIC2)
  {
  }

  /** ... and enabling every slave line masks the cascade line. */
  lemma CascadeMaskedOnEmptySlaveMask()
    ensures var s := Chips(0xFB, 0x01, 0xFB, 0x01, []);
      var t := Enable(s, 8, true);
      t.cacheSlave == 0x00 && IsMasked(t.cacheMaster, INT_PIC2)
  {
  }

  /** The state of CascadeMaskedOnEmptySlaveMask is reached from any state
      by the public calls: init, then unmasking vectors 8 to 15 one after the
      other leaves every slave line enabled and the cascade line masked, so
      no slave interrupt reaches the CPU. */
  lemma CascadeMaskedAfterUnmaskingSlave(s: Chips)
    ensures var t := Run(s, 16, [Init, Unmask(8), Unmask(9), Unmask(10), Unmask(11),
                                  Unmask(12), Unmask(13), Unmask(14), Unmask(15)]);
      t.cacheSlave == 0x00 && t.imrSlave == 0x00 && IsMasked(t.cacheMaster, INT_PIC2)
  {
  }

  /** With every slave line enabled, each further slave-side unmask flips
      the cascade bit, so the slave-side `enable` is not idempotent. */
  lemma SlaveEnableNotIdempotent()
    ensures var s := Chips(0xFB, 0x00, 0xFB, 0x00, []);
      && IsMasked(Enable(s, 8, true).cacheMaster, INT_PIC2)
      && !IsMasked(Enable(Enable(s, 8, true), 8, true).cacheMaster, INT_PIC2)
  {
  }

  /** So a mask/unmask round trip on a slave vector is not an identity:
      it gives back the slave mask but moves the cascade bit. */
  lemma SlaveRoundTripMovesCascade()
    ensures var s := Chips(0xFB, 0x00, 0xFB, 0x00, []);
      var (st1, t) := SetMasked(s, 16, 8, true);
      var (st2, u) := SetMasked(t, 16, 8, false);
      && st1 == NoError && st2 == NoError
      && u.cacheSlave == s.cacheSlave && u.imrSlave == s.imrSlave
      && !IsMasked(s.cacheMaster, INT_PIC2) && IsMasked(u.cacheMaster, INT_PIC2)
  {
  }

  /** `enable` ignores vectors past the slave (intc.c:138-140). */
  lemma EnableOutOfRange(s: Chips, v: nat, e: bool)
    requires v >= PIC2_BASE + 8
    ensures Enable(s, v, e) == s
  {
  }

  /** `mask_interrupt`/`unmask_interrupt` refuse exactly the vectors past the
      handler table, and a refused call changes nothing (intc.c:161-162,
      191-192). */
  lemma SetMaskedStatus(s: Chips, vectors: nat, v: nat, masked: bool)
    ensures var (st, t) := SetMasked(s, vectors, v, masked);
      && (st == ErrInvalidArgs <==> v >= vectors)
      && (st == ErrInvalidArgs ==> t == s)
  {
  }

  /** `issueEOI` (intc.c:143-151) touches no mask, writes only the OCW2 EOI
      command to the command ports, acknowledges the slave exactly for slave
      vectors, and for every controller vector acknowledges the master
      last. */
  lemma EoiProtocol(s: Chips, v: nat)
    ensures var t := IssueEoi(s, v);
      var w := EoiWrites(v);
      && t.trace == s.trace + w
      && t.cacheMaster == s.cacheMaster && t.cacheSlave == s.cacheSlave
      && t.imrMaster == s.imrMaster && t.imrSlave == s.imrSlave
      && (forall k :: 0 <= k < |w| ==> w[k] == PortWrite(PIC1, EOI) || w[k] == PortWrite(PIC2, EOI))
      && (PortWrite(PIC2, EOI) in w <==> PIC2_BASE <= v < PIC2_BASE + 8)
      && (v < PIC2_BASE + 8 <==> w != [] && w[|w| - 1] == PortWrite(PIC1, EOI))
      && (v < PIC1_BASE + 8 ==> w == [PortWrite(PIC1, EOI)])
      && (PIC2_BASE <= v < PIC2_BASE + 8 ==> w == [PortWrite(PIC2, EOI), PortWrite(PIC1, EOI)])
      && (v >= PIC2_BASE + 8 ==> w == [])
  {
  }

  /** `platform_mask_irqs` (intc.c:177-187) leaves caches and registers at
      0xFF from any state, with one write per chip, master first. */
  lemma MaskAllQuiesces(s: Chips)
    ensures var t := MaskAll(s);
      && Coherent(t) && t.cacheMaster == 0xFF && t.cacheSlave == 0xFF
      && t.trace == s.trace + [PortWrite(PIC1_DATA, 0xFF), PortWrite(PIC2_DATA, 0xFF)]
  {
  }

  /** Every path that writes a mask register reads it back into the cache,
      so no controller call breaks the agreement of cache and hardware. */
  lemma StepKeepsCoherent(s: Chips, vectors: nat, op: Op)
    requires Coherent(s) || op.Init? || op.MaskAllOp?
    ensures Coherent(Step(s, vectors, op))
  {
    match op
    case Mask(v) => if v < 16 { EnableCoherent(s, v, false); }
    case Unmask(v) => if v < 16 { EnableCoherent(s, v, true); }
    case _ =>
  }

  lemma EnableCoherent(s: Chips, v: nat, e: bool)
    requires Coherent(s)
    ensures Coherent(Enable(s, v, e))
  {
    if v < 8 {
      EnableMaster(s, v, e);
    } else if v < 16 {
      EnableSlave(s, v, e);
    }
  }

  /** Once the controller is initialised, the cache equals the hardware
      after every later sequence of calls. */
  lemma {:induction false} RunKeepsCoherent(s: Chips, vectors: nat, ops: seq<Op>)
    requires Coherent(s) || (ops != [] && ops[0] == Init)
    ensures Coherent(Run(s, vectors, ops))
    decreases |ops|
  {
    if ops != [] {
      StepKeepsCoherent(s, vectors, ops[0]);
      RunKeepsCoherent(Step(s, vectors, ops[0]), vectors, ops[1..]);
    }
  }

  /** A write to one of the four controller ports. */
  predicate IsPicWrite(ev: Event)
  {
    ev.PortWrite? && ev.port in {PIC1, PIC1_DATA, PIC2, PIC2_DATA}
  }

  /** `t`'s trace is `s`'s with controller port writes appended. */
  predicate Extends(s: Chips, t: Chips)
  {
    && |s.trace| <= |t.trace|
    && t.trace[..|s.trace|] == s.trace
    && forall k :: |s.trace| <= k < |t.trace| ==> IsPicWrite(t.trace[k])
  }

  lemma ExtendsTransitive(a: Chips, b: Chips, c: Chips)
    requires Extends(a, b) && Extends(b, c)
    ensures Extends(a, c)
  {
    assert c.trace[..|a.trace|] == c.trace[..|b.trace|][..|a.trace|];
    forall k | |a.trace| <= k < |c.trace|
      ensures IsPicWrite(c.trace[k])
    {
      if k < |b.trace| {
        assert c.trace[k] == c.trace[..|b.trace|][k];
      }
    }
  }

  lemma AppendExtends(s: Chips, t: Chips, w: seq<Event>)
    requires t.trace == s.trace + w
    requires forall k :: 0 <= k < |w| ==> IsPicWrite(w[k])
    ensures Extends(s, t)
  {
    assert t.trace[..|s.trace|] == s.trace;
    forall k | |s.trace| <= k < |t.trace|
      ensures IsPicWrite(t.trace[k])
    {
      assert t.trace[k] == w[k - |s.trace|];
    }
  }

  lemma EnableExtends(s: Chips, v: nat, e: bool)
    ensures Extends(s, Enable(s, v, e))
  {
    if v < 8 {
      var bit := LineBit(v);
      AppendExtends(s, s, []);
      AppendExtends(s, RewriteMaster(s, bit, false), [PortWrite(PIC1_DATA, WithBit(s.imrMaster, bit, false))]);
      AppendExtends(s, RewriteMaster(s, bit, true), [PortWrite(PIC1_DATA, WithBit(s.imrMaster, bit, true))]);
    } else if v < 16 {
      var m := EnableOnSlave(s, v - 8, e);
      var bit := LineBit(v - 8);
      AppendExtends(s, s, []);
      AppendExtends(s, RewriteSlave(s, bit, false), [PortWrite(PIC2_DATA, WithBit(s.imrSlave, bit, false))]);
      AppendExtends(s, RewriteSlave(s, bit, true), [PortWrite(PIC2_DATA, WithBit(s.imrSlave, bit, true))]);
      AppendExtends(m, m, []);
      AppendExtends(m, RewriteMaster(m, CASCADE_BIT, false), [PortWrite(PIC1_DATA, WithBit(m.imrMaster, CASCADE_BIT, false))]);
      AppendExtends(m, RewriteMaster(m, CASCADE_BIT, true), [PortWrite(PIC1_DATA, WithBit(m.imrMaster, CASCADE_BIT, true))]);
      ExtendsTransitive(s, m, Cascade(m));
    } else {
      AppendExtends(s, s, []);
    }
  }

  lemma StepExtends(s: Chips, vectors: nat, op: Op)
    ensures Extends(s, Step(s, vectors, op))
  {
    match op
    case Init => AppendExtends(s, Step(s, vectors, op), MapWrites(PIC1_BASE as bv32, PIC2_BASE as bv32));
    case Mask(v) => EnableExtends(s, v, false); AppendExtends(s, s, []);
    case Unmask(v) => EnableExtends(s, v, true); AppendExtends(s, s, []);
    case MaskAllOp => AppendExtends(s, Step(s, vectors, op), [PortWrite(PIC1_DATA, 0xFF), PortWrite(PIC2_DATA, 0xFF)]);
    case Eoi(v) => AppendExtends(s, Step(s, vectors, op), EoiWrites(v));
  }

  /** Events are only ever appended, and every one of them is a write to one
      of the four controller ports. */
  lemma {:induction false} RunExtends(s: Chips, vectors: nat, ops: seq<Op>)
    ensures Extends(s, Run(s, vectors, ops))
    decreases |ops|
  {
    if ops == [] {
      AppendExtends(s, s, []);
    } else {
      var s' := Step(s, vectors, ops[0]);
      StepExtends(s, vectors, ops[0]);
      RunExtends(s', vectors, ops[1..]);
      ExtendsTransitive(s, s', Run(s', vectors, ops[1..]));
    }
  }

  /** Registering `(h, a)` at `v` changes that slot only, and the next
      delivery of `v` calls `h` with `a` once and returns its answer
      (intc.c:213-216, 224-236). */
  lemma RegisterThenDispatch(table: seq<HandlerEntry>, v: nat, h: HandlerId, a: Arg,
                             call: (HandlerId, Arg) -> HandlerReturn)
    requires v < |table|
    ensures var t := table[v := HandlerEntry(Some(h), a)];
      && (forall i :: 0 <= i < |table| && i != v ==> t[i] == table[i])
      && Invocation(t[v]) == [HandlerCall(h, a)]
      && Dispatch(t[v], call) == call(h, a)
  {
  }

  /** An empty slot calls nothing and asks for no reschedule. */
  lemma EmptySlotIsIgnored(e: HandlerEntry, call: (HandlerId, Arg) -> HandlerReturn)
    requires e.handler.None?
    ensures Invocation(e) == [] && Dispatch(e, call) == NoReschedule
  {
  }
}
