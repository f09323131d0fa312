// A named set of voltage regulators with a reference count.  The regulator framework
// is the environment: its calls return the codes listed in rcs, in order, and 0 after
// the list ends.

module Supply {
  class Regulators {
    const count: nat
    const hasVoltages: seq<bool>  // regulator_count_voltages() > 0
    const rcs: seq<int>
    var calls: nat
    var refcount: nat
    // For each regulator: regulator_enable calls that succeeded minus regulator_disable calls.
    ghost var level: seq<int>

    ghost predicate Valid()
      reads this
    {
      |hasVoltages| == |level| == count
    }

    /** All regulators are on, once, when the set is referenced, and off otherwise. */
    ghost predicate Agrees()
      reads this
    {
      Valid() && forall i :: 0 <= i < count ==> level[i] == if refcount > 0 then 1 else 0
    }

    predicate NoFaults() { forall k :: 0 <= k < |rcs| ==> rcs[k] == 0 }

    /** What call k returns. */
    function Code(k: nat): int {
      if k < |rcs| then rcs[k] else 0
    }

    /** How many calls switch on regulator i: its load, its voltage where it has a choice,
        and the regulator itself. */
    function CallsFor(i: nat): nat
      requires i < |hasVoltages|
    {
      if hasVoltages[i] then 3 else 2
    }

    /** The calls from call k on switch on regulator i. */
    predicate Starts(i: nat, k: nat)
      requires i < |hasVoltages|
    {
      Code(k) >= 0 && (hasVoltages[i] ==> Code(k + 1) == 0) && Code(k + CallsFor(i) - 1) == 0
    }

    /** The calls from call k on switch on all regulators from i on. */
    predicate AllStart(i: nat, k: nat)
      requires i <= |hasVoltages|
      decreases |hasVoltages| - i
    {
      i == |hasVoltages| || (Starts(i, k) && AllStart(i + 1, k + CallsFor(i)))
    }

    /** The next reference can be had: there is one already, there is nothing to switch on,
        or everything will go on. */
    predicate CanEnable()
      reads this
    {
      refcount > 0 || count == 0 || AllStart(0, calls)
    }

    lemma NoFaultsStart(i: nat, k: nat)
      requires NoFaults() && i <= |hasVoltages|
      ensures AllStart(i, k)
      decreases |hasVoltages| - i
    {
      if i < |hasVoltages| {
        NoFaultsStart(i + 1, k + CallsFor(i));
      }
    }

    constructor (hasVoltages: seq<bool>, rcs: seq<int>)
      ensures this.hasVoltages == hasVoltages && count == |hasVoltages| && this.rcs == rcs
      ensures Agrees() && refcount == 0 && calls == 0
    {
      this.count, this.hasVoltages, this.rcs := |hasVoltages|, hasVoltages, rcs;
      calls, refcount, level := 0, 0, seq(|hasVoltages|, i => 0);
    }

    method Next() returns (rc: int)
      modifies this`calls
      ensures calls == old(calls) + 1 && rc == Code(old(calls))
    {
      rc := Code(calls);
      calls := calls + 1;
    }

    /** The regulators below m are one up from l. */
    ghost predicate Upto(l: seq<int>, m: int)
      reads this
    {
      |level| == |l| && forall i :: 0 <= i < |l| ==> level[i] == if i < m then l[i] + 1 else l[i]
    }

    /** Loads and voltages of regulator i, then regulator_enable. */
    method EnableOne(i: nat, ghost l: seq<int>) returns (rc: int)
      requires Valid() && i < count && Upto(l, i)
      modifies this`calls, this`level
      ensures Valid() && Upto(l, if rc == 0 then i + 1 else i)
      ensures rc == 0 <==> Starts(i, old(calls))
      ensures rc == 0 ==> calls == old(calls) + CallsFor(i)
    {
      rc := Next();
      if rc < 0 {
        return;
      }
      if hasVoltages[i] {
        rc := Next();
        if rc != 0 {
          return;
        }
      }
      rc := Next();
      if rc == 0 {
        level := level[i := level[i] + 1];
      }
    }

    /** dsi_pwr_enable_vregs(true): all of them, or none. */
    method EnableAll() returns (rc: int)
      requires Valid()
      modifies this`calls, this`level
      ensures Valid() && (rc == 0 <==> AllStart(0, old(calls)))
      ensures rc == 0 ==> Upto(old(level), count)
      ensures rc != 0 ==> level == old(level)
    {
      ghost var l, k := level, calls;
      rc := 0;
      var i := 0;
      while i < count
        invariant 0 <= i <= count && rc == 0 && Valid() && Upto(l, i)
        invariant AllStart(0, k) <==> AllStart(i, calls)
      {
        rc := EnableOne(i, l);
        if rc != 0 {
          break;
        }
        i := i + 1;
      }
      if rc != 0 {
        while i > 0
          invariant 0 <= i <= count && Valid() && Upto(l, i)
        {
          i := i - 1;
          level := level[i := level[i] - 1];
        }
      }
    }

    /** dsi_pwr_enable_vregs(false). */
    method DisableAll()
      requires Valid()
      modifies this`level
      ensures Valid() && forall i :: 0 <= i < count ==> level[i] == old(level)[i] - 1
    {
      ghost var l := level;
      var i := count;
      while i > 0
        invariant 0 <= i <= count && Valid()
        invariant forall j :: 0 <= j < count ==> level[j] == if j < i then l[j] else l[j] - 1
      {
        i := i - 1;
        level := level[i := level[i] - 1];
      }
    }

    /** dsi_pwr_enable_regulator(true).  The reference is counted even when the regulators
        could not be enabled, so that afterwards the count tells the truth exactly when the
        reference could be had. */
    method Enable() returns (rc: int)
      requires Valid()
      modifies this`calls, this`level, this`refcount
      ensures Valid() && (rc == 0 <==> old(CanEnable())) && (NoFaults() ==> rc == 0)
      ensures refcount == old(refcount) + if count == 0 then 0 else 1
      ensures old(Agrees()) ==> (Agrees() <==> old(CanEnable()))
      ensures rc != 0 ==> old(refcount) == 0 && count > 0 && level == old(level)
      ensures old(refcount) > 0 ==> rc == 0 && level == old(level)
    {
      rc := 0;
      if NoFaults() {
        NoFaultsStart(0, calls);
      }
      if count == 0 {
        return;
      }
      if refcount == 0 {
        rc := EnableAll();
      }
      refcount := refcount + 1;
      assert rc != 0 ==> level[0] == old(level)[0];
    }

    /** dsi_pwr_enable_regulator(false); it cannot fail.  An unbalanced call changes nothing. */
    method Disable() returns (rc: int)
      requires Valid()
      modifies this`level, this`refcount
      ensures rc == 0 && Valid() && (old(Agrees()) ==> Agrees())
      ensures refcount == if count == 0 || old(refcount) == 0 then old(refcount) else old(refcount) - 1
      ensures count == 0 || old(refcount) != 1 ==> level == old(level)
    {
      rc := 0;
      if count == 0 {
        return;
      }
      if refcount > 0 {
        refcount := refcount - 1;
        if refcount == 0 {
          DisableAll();
        }
      }
    }
  }

  /** One regulator whose enabling fails: the set is referenced, the regulator is off. */
  method ReferencedButOff() returns (set1: Regulators)
    ensures set1.hasVoltages == [false] && set1.rcs == [0, -5]
    ensures fresh(set1) && set1.Valid() && set1.refcount == 1 && set1.level == [0] && !set1.Agrees()
  {
    set1 := new Regulators([false], [0, -5]);
    assert !set1.Starts(0, 0);
    assert set1.level == [0];
    var rc := set1.Enable();
    assert set1.level[0] == 0;
  }

  /** Two regulators, the second with a choice of voltages: after its load, whose mode is
      reported as a positive value, come its voltage and its enabling.  If either is refused,
      the first regulator goes off again. */
  method SecondRefused() returns (good: Regulators, noVoltage: Regulators, noEnable: Regulators)
    ensures good.hasVoltages == noVoltage.hasVoltages == noEnable.hasVoltages == [false, true]
    ensures good.rcs == [3, 0, 3, 0, 0] && noVoltage.rcs == [3, 0, 3, -22, 0] && noEnable.rcs == [3, 0, 3, 0, -22]
    ensures fresh(good) && good.Agrees() && good.refcount == 1 && good.level == [1, 1]
    ensures fresh(noVoltage) && noVoltage.refcount == 1 && noVoltage.level == [0, 0]
    ensures fresh(noEnable) && noEnable.refcount == 1 && noEnable.level == [0, 0]
  {
    good := new Regulators([false, true], [3, 0, 3, 0, 0]);
    assert good.Starts(0, 0) && good.Starts(1, 2) && good.AllStart(2, 5) && good.AllStart(1, 2) && good.AllStart(0, 0);
    var rc := good.Enable();
    assert good.level[0] == 1 && good.level[1] == 1;
    noVoltage := new Regulators([false, true], [3, 0, 3, -22, 0]);
    assert !noVoltage.Starts(1, 2) && !noVoltage.AllStart(1, 2) && !noVoltage.AllStart(0, 0);
    rc := noVoltage.Enable();
    assert noVoltage.level[0] == 0 && noVoltage.level[1] == 0;
    noEnable := new Regulators([false, true], [3, 0, 3, 0, -22]);
    assert !noEnable.Starts(1, 2) && !noEnable.AllStart(1, 2) && !noEnable.AllStart(0, 0);
    rc := noEnable.Enable();
    assert noEnable.level[0] == 0 && noEnable.level[1] == 0;
  }
}
