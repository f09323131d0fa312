// The status interrupts of a DSI controller: reference counts, the mask they make up,
// the interrupt line and the enable bits in the hardware.

module StatusIrq {
  import opened Words

  const COUNT: nat := 11  // DSI_STATUS_INTERRUPT_COUNT

  /** The enable bit of a status interrupt in DSI_INT_CTRL; the last two have none. */
  function HwBit(i: nat): nat {
    if i == 0 then 1 else if i == 1 then 11 else if i == 2 then 13 else if i == 3 then 15
    else if i == 4 then 17 else if i == 5 then 21 else if i == 6 then 9 else if i == 7 then 29 else 31
  }

  /** The interrupt that a bit of DSI_INT_CTRL enables, or COUNT. */
  function Source(b: nat): nat {
    if b == 1 then 0 else if b == 9 then 6 else if b == 11 then 1 else if b == 13 then 2 else if b == 15 then 3
    else if b == 17 then 4 else if b == 21 then 5 else if b == 29 then 7 else if b == 31 then 8 else COUNT
  }

  lemma BitsDiffer(i: nat, b: nat)
    requires i <= 8
    ensures Source(b) == i <==> HwBit(i) == b
  {
  }

  /** Apart from the error mask bit, reg holds the enable bits of those interrupts of
      `ints` that are in `considered`. */
  ghost predicate Shows(reg: Word, ints: Word, considered: Word) {
    forall b :: b != 25 ==> (b in reg <==> Source(b) in ints && Source(b) in considered)
  }

  /** The enable bits of DSI_INT_CTRL, one by one. */
  lemma EnableBits(reg: Word, ints: Word)
    requires Shows(reg, ints, MAPPED)
    ensures (1 in reg <==> 0 in ints) && (9 in reg <==> 6 in ints) && (11 in reg <==> 1 in ints)
    ensures (13 in reg <==> 2 in ints) && (15 in reg <==> 3 in ints) && (17 in reg <==> 4 in ints)
    ensures (21 in reg <==> 5 in ints) && (29 in reg <==> 7 in ints) && (31 in reg <==> 8 in ints)
    ensures forall b :: b in reg ==> b in {1, 9, 11, 13, 15, 17, 21, 25, 29, 31}
  {
  }

  const MAPPED: Word := {0, 1, 2, 3, 4, 5, 6, 7, 8}

  // ---------------------------------------------------------------------
  // Runs
  // ---------------------------------------------------------------------

  /** A request or a release of an interrupt; setting up the line, with the results of the
      platform calls, and its teardown. */
  datatype Op = Enable(i: nat) | Disable(i: nat) | SetUp(platformIrq: int, requestRc: int) | TearDown

  /** The number of the line after a run that began with `irq`; -1 if there is none. */
  function Line(irq: int, ops: seq<Op>): int {
    if ops == [] then irq
    else
      var now := Line(irq, ops[..|ops| - 1]);
      match ops[|ops| - 1]
      case SetUp(p, rc) => if now == -1 && p >= 0 && rc == 0 then p else now
      case TearDown => -1
      case _ => now
  }

  /** How often interrupt i has been requested and not released again, as far as there was a
      line; releases beyond the requests are lost. */
  function Requests(irq: int, ops: seq<Op>, i: nat): nat {
    if ops == [] then 0
    else
      var past := ops[..|ops| - 1];
      var n := Requests(irq, past, i);
      if Line(irq, past) == -1 then n
      else
        match ops[|ops| - 1]
        case Enable(j) => if i == j then n + 1 else n
        case Disable(j) => if i == j && n > 0 then n - 1 else n
        case _ => n
  }

  /** The k-th step makes a line while some interrupt is still counted. */
  ghost predicate Revives(irq: int, ops: seq<Op>, k: nat)
    requires k < |ops|
  {
    ops[k].SetUp? && ops[k].platformIrq >= 0 && ops[k].requestRc == 0 && Line(irq, ops[..k]) == -1 &&
    exists i :: 0 <= i < 11 && Requests(irq, ops[..k], i) > 0
  }

  ghost predicate NeverRevives(irq: int, ops: seq<Op>) {
    forall k :: 0 <= k < |ops| ==> !Revives(irq, ops, k)
  }

  lemma RevivesMore(irq: int, ops: seq<Op>)
    requires ops != []
    ensures var n := |ops| - 1;
            NeverRevives(irq, ops) <==> NeverRevives(irq, ops[..n]) && !Revives(irq, ops, n)
  {
    var n := |ops| - 1;
    var past := ops[..n];
    assert forall k :: 0 <= k < n ==> past[..k] == ops[..k] && past[k] == ops[k];
    assert forall k :: 0 <= k < n ==> (Revives(irq, past, k) <==> Revives(irq, ops, k));
  }

  /** reg |= the enable bit of interrupt i, if it is among `ints`. */
  method Consider(reg: Word, ints: Word, i: nat, ghost considered: Word) returns (reg': Word)
    requires i <= 8 && Shows(reg, ints, considered)
    ensures Shows(reg', ints, considered + {i}) && (25 in reg' <==> 25 in reg)
  {
    reg' := if i in ints then reg + {HwBit(i)} else reg;
    forall b | b != 25
      ensures b in reg' <==> Source(b) in ints && Source(b) in considered + {i}
    {
      BitsDiffer(i, b);
    }
  }

  /** The mask is the set of the interrupts with a count. */
  ghost predicate Counted(mask: Word, refs: seq<nat>) {
    |refs| == 11 && (forall i :: i in mask ==> i < 11 && refs[i] > 0) &&
    forall i :: 0 <= i < 11 && refs[i] > 0 ==> i in mask
  }

  class Interrupts {
    var irqNum: int
    var refcount: seq<nat>
    var mask: Word
    var intCtrl: Word       // DSI_INT_CTRL
    ghost var lineOn: bool  // the interrupt line is enabled
    // enable_irq was called only with the line off, and disable_irq only with it on.
    ghost var alternates: bool

    /** What holds with or without a line: the mask shows the counts, the hardware the mask. */
    ghost predicate Masked()
      reads this
    {
      Counted(mask, refcount) && Shows(intCtrl, mask, MAPPED)
    }

    ghost predicate Inv()
      reads this
    {
      Masked() && alternates && (irqNum != -1 ==> (lineOn <==> mask != {}))
    }

    constructor (intCtrl: Word)
      requires Shows(intCtrl, {}, MAPPED)
      ensures Inv() && irqNum == -1 && mask == {} && refcount == seq(11, i => 0) && this.intCtrl == intCtrl
    {
      irqNum, refcount, mask, lineOn, alternates := -1, seq(11, i => 0), {}, false, true;
      this.intCtrl := intCtrl;
    }

    method EnableIrq()
      modifies this`lineOn, this`alternates
      ensures lineOn && alternates == (old(alternates) && !old(lineOn))
    {
      alternates := alternates && !lineOn;
      lineOn := true;
    }

    method DisableIrq()
      modifies this`lineOn, this`alternates
      ensures !lineOn && alternates == (old(alternates) && old(lineOn))
    {
      alternates := alternates && lineOn;
      lineOn := false;
    }

    /** enable_status_interrupts: the image of `ints`, and the error mask bit as it was. */
    method EnableStatusInterrupts(ints: Word)
      modifies this`intCtrl
      ensures Shows(intCtrl, ints, MAPPED) && (25 in intCtrl <==> 25 in old(intCtrl))
      ensures (1 in intCtrl <==> 0 in ints) && (9 in intCtrl <==> 6 in ints) && (11 in intCtrl <==> 1 in ints)
      ensures (13 in intCtrl <==> 2 in ints) && (15 in intCtrl <==> 3 in ints) && (17 in intCtrl <==> 4 in ints)
      ensures (21 in intCtrl <==> 5 in ints) && (29 in intCtrl <==> 7 in ints) && (31 in intCtrl <==> 8 in ints)
      ensures forall b :: b in intCtrl ==> b in {1, 9, 11, 13, 15, 17, 21, 25, 29, 31}
    {
      var reg := intCtrl * {25};
      reg := Consider(reg, ints, 0, {});
      reg := Consider(reg, ints, 6, {0});
      reg := Consider(reg, ints, 1, {0, 6});
      reg := Consider(reg, ints, 2, {0, 6, 1});
      reg := Consider(reg, ints, 3, {0, 6, 1, 2});
      reg := Consider(reg, ints, 4, {0, 6, 1, 2, 3});
      reg := Consider(reg, ints, 5, {0, 6, 1, 2, 3, 4});
      reg := Consider(reg, ints, 7, {0, 6, 1, 2, 3, 4, 5});
      reg := Consider(reg, ints, 8, {0, 6, 1, 2, 3, 4, 5, 7});
      assert {0, 6, 1, 2, 3, 4, 5, 7} + {8} == MAPPED;
      EnableBits(reg, ints);
      intCtrl := reg;
    }

    /** _dsi_ctrl_setup_isr, with the results of the platform calls.  The line of a fresh
        interrupt is on and is switched off.  After a teardown that left interrupts
        enabled this breaks the invariant: it is kept exactly when the mask is empty. */
    method Setup(platformIrq: int, requestRc: int) returns (rc: int)
      requires Masked()
      modifies this`irqNum, this`lineOn, this`alternates
      ensures Masked()
      ensures old(irqNum) != -1 ==> rc == 0 && irqNum == old(irqNum) && (old(Inv()) ==> Inv())
      ensures old(irqNum) == -1 && (platformIrq < 0 || requestRc != 0) ==>
        rc != 0 && irqNum == -1 && (old(Inv()) ==> Inv())
      ensures old(irqNum) == -1 && platformIrq >= 0 && requestRc == 0 ==>
        rc == 0 && irqNum == platformIrq && !lineOn && (old(Inv()) ==> (Inv() <==> mask == {}))
    {
      if irqNum != -1 {
        return 0;
      }
      if platformIrq < 0 {
        rc := platformIrq;
      } else {
        rc := requestRc;
        if rc == 0 {
          irqNum := platformIrq;
          lineOn := true;
          DisableIrq();
        }
      }
    }

    /** _dsi_ctrl_destroy_isr: counts and mask stay. */
    method Destroy()
      requires Masked()
      modifies this`irqNum
      ensures Masked() && (old(Inv()) ==> Inv()) && irqNum == if old(irqNum) >= 0 then -1 else old(irqNum)
    {
      if irqNum < 0 {
        return;
      }
      irqNum := -1;
    }

    /** The first request of interrupt i, before it is counted. */
    method SwitchOn(i: nat)
      requires Masked() && irqNum != -1 && i < 11 && refcount[i] == 0
      modifies this`mask, this`intCtrl, this`lineOn, this`alternates
      ensures mask == old(mask) + {i} && (old(Inv()) ==> lineOn && alternates)
      ensures Shows(intCtrl, mask, MAPPED) && (25 in intCtrl <==> 25 in old(intCtrl))
    {
      if mask == {} {
        EnableIrq();
      }
      mask := mask + {i};
      EnableStatusInterrupts(mask);
    }

    /** dsi_ctrl_enable_status_interrupt. */
    method Enable(i: nat)
      requires Masked()
      modifies this
      ensures Masked() && (old(Inv()) ==> Inv()) && irqNum == old(irqNum) && (25 in intCtrl <==> 25 in old(intCtrl))
      ensures if irqNum == -1 || i >= 11 then refcount == old(refcount)
              else refcount == old(refcount)[i := old(refcount)[i] + 1]
    {
      if irqNum == -1 || i >= COUNT {
        return;
      }
      if refcount[i] == 0 {
        SwitchOn(i);
      }
      refcount := refcount[i := refcount[i] + 1];
      assert Counted(mask, refcount) && i in mask;
    }

    /** dsi_ctrl_disable_status_interrupt. */
    method Disable(i: nat)
      requires Masked()
      modifies this
      ensures Masked() && (old(Inv()) ==> Inv()) && irqNum == old(irqNum) && (25 in intCtrl <==> 25 in old(intCtrl))
      ensures if irqNum == -1 || i >= 11 || old(refcount)[i] == 0 then refcount == old(refcount)
              else refcount == old(refcount)[i := old(refcount)[i] - 1]
    {
      if irqNum == -1 || i >= COUNT {
        return;
      }
      if refcount[i] > 0 {
        refcount := refcount[i := refcount[i] - 1];
        if refcount[i] == 0 {
          mask := mask - {i};
          EnableStatusInterrupts(mask);
          if mask == {} {
            DisableIrq();
          }
        }
      }
    }

    method Step(op: Op)
      requires Masked()
      modifies this
      ensures Masked() && (25 in intCtrl <==> 25 in old(intCtrl))
      ensures irqNum ==
              match op
              case SetUp(p, rc) => if old(irqNum) == -1 && p >= 0 && rc == 0 then p else old(irqNum)
              case TearDown => if old(irqNum) >= 0 then -1 else old(irqNum)
              case _ => old(irqNum)
      ensures forall i :: 0 <= i < 11 ==>
        refcount[i] ==
          if old(irqNum) == -1 then old(refcount)[i]
          else
            match op
            case Enable(j) => old(refcount)[i] + if i == j then 1 else 0
            case Disable(j) => if i == j && old(refcount)[i] > 0 then old(refcount)[i] - 1 else old(refcount)[i]
            case _ => old(refcount)[i]
      ensures old(Inv()) ==>
        (Inv() <==> !(op.SetUp? && op.platformIrq >= 0 && op.requestRc == 0 && old(irqNum) == -1 && old(mask) != {}))
    {
      match op {
        case Enable(i) => Enable(i);
        case Disable(i) => Disable(i);
        case SetUp(p, rc) => var _ := Setup(p, rc);
        case TearDown => Destroy();
      }
    }

    /** Any sequence of set-ups, teardowns, requests and releases.  Counts, mask and hardware
        always agree.  The line has agreed with them after every step, `kept`, exactly if no
        line was made while interrupts were still counted. */
    method Run(ops: seq<Op>) returns (ghost kept: bool)
      requires Inv() && mask == {} && irqNum >= -1
      modifies this
      ensures Masked() && irqNum == Line(old(irqNum), ops) && (25 in intCtrl <==> 25 in old(intCtrl))
      ensures forall i :: 0 <= i < 11 ==> refcount[i] == Requests(old(irqNum), ops, i)
      ensures forall i :: i in mask <==> i < 11 && Requests(old(irqNum), ops, i) > 0
      ensures kept <==> NeverRevives(old(irqNum), ops)
      ensures kept ==> Inv()
      ensures kept && irqNum != -1 ==> (lineOn <==> exists i :: 0 <= i < 11 && Requests(old(irqNum), ops, i) > 0)
      decreases |ops|
    {
      hide Shows;
      kept := true;
      if ops != [] {
        var n := |ops| - 1;
        ghost var irq := irqNum;
        kept := Run(ops[..n]);
        RevivesMore(irq, ops);
        LineIs(irq, ops[..n]);
        assert mask != {} <==> exists i :: 0 <= i < 11 && Requests(irq, ops[..n], i) > 0;
        Step(ops[n]);
        kept := kept && Inv();
      }
    }
  }

  lemma {:induction false} LineIs(irq: int, ops: seq<Op>)
    requires irq >= -1
    ensures Line(irq, ops) >= -1
  {
    if ops != [] {
      LineIs(irq, ops[..|ops| - 1]);
    }
  }

  /** The interrupt of a first line, still counted when a second one is made: it is enabled in
      the hardware, and the line is off. */
  method SecondLineIsOff() returns (c: Interrupts)
    ensures c.Masked() && c.mask == {0} && c.refcount[0] == 1 && c.irqNum == 7 && !c.lineOn && !c.Inv()
  {
    c := new Interrupts({});
    var rc := c.Setup(7, 0);
    c.Enable(0);
    assert c.mask == {0};
    c.Destroy();
    rc := c.Setup(7, 0);
  }
}
