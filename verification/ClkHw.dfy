// The clocks of one or two DSI controllers: the start, stop, enable and disable
// sequences of the clock manager, down to every call into the clock, bus and
// power frameworks.  Those frameworks are the environment: they return the codes
// listed in onRc and offRc, and 0 after the lists end.

module ClkHw {
  /** The lines of a controller come in three groups. */
  datatype Group = CORE_LINES | HS_LINES | LP_LINES

  // The core lines in the order they are switched on.
  const POWER: nat := 0
  const MDP: nat := 1
  const MNOC: nat := 2
  const IFACE: nat := 3
  const BUS: nat := 4
  const MMSS: nat := 5
  const VOTE: nat := 6

  // The high-speed link lines: the byte, pixel and byte-interface clock prepared (0..2),
  // then enabled (3..5).  The low-power ones: the escape clock prepared and enabled.
  const INTF: nat := 7

  /** Which of the lines MDP..VOTE, and the byte-interface clock, a controller has. */
  type Has = set<nat>

  predicate Exists(g: Group, h: Has, k: nat) {
    match g
    case CORE_LINES => k == 0 || k in h
    case HS_LINES => (k == 2 || k == 5) ==> 7 in h
    case LP_LINES => true
  }

  /** The order in which the core of a controller starts: its power, the display core, MNOC,
      interface, bus and MMSS clocks, and the bus vote. */
  lemma Places()
    ensures POWER == 0 && MDP == 1 && MNOC == 2 && IFACE == 3 && BUS == 4 && MMSS == 5 && VOTE == 6 && INTF == 7
  {
  }

  // Ghost counters of one group: for each line the calls that switched it on minus the
  // calls that switched it off.
  type Counts = seq<int>

  /** Every line stands at depth d, as far as it exists. */
  ghost predicate At(g: Group, h: Has, c: Counts, d: int) {
    forall k :: 0 <= k < |c| ==> c[k] == if Exists(g, h, k) then d else 0
  }

  /** The first m lines are one up from c. */
  ghost predicate Upto(g: Group, h: Has, c': Counts, c: Counts, m: nat) {
    |c'| == |c| && forall k :: 0 <= k < |c| ==> c'[k] == if k < m && Exists(g, h, k) then c[k] + 1 else c[k]
  }

  /** All lines are d up from c. */
  ghost predicate Moved(g: Group, h: Has, c': Counts, c: Counts, d: int) {
    |c'| == |c| && forall k :: 0 <= k < |c| ==> c'[k] == if Exists(g, h, k) then c[k] + d else c[k]
  }

  /** No line is on. */
  ghost predicate Idle(c: Counts) {
    forall k :: 0 <= k < |c| ==> c[k] <= 0
  }

  /** All lines are on. */
  ghost predicate Full(g: Group, h: Has, c: Counts) {
    forall k :: 0 <= k < |c| && Exists(g, h, k) ==> c[k] >= 1
  }

  /** c with every line one down. */
  ghost function Below(g: Group, h: Has, c: Counts): (b: Counts)
    ensures Upto(g, h, c, b, |c|) && Moved(g, h, b, c, -1)
  {
    seq(|c|, k requires 0 <= k < |c| => if Exists(g, h, k) then c[k] - 1 else c[k])
  }

  lemma Rests(g: Group, h: Has, c: Counts)
    ensures (At(g, h, c, 0) ==> Idle(c)) && (At(g, h, c, 1) ==> Full(g, h, c))
  {
  }

  lemma Steps(g: Group, h: Has, c': Counts, c: Counts, e: int, d: int)
    requires Moved(g, h, c', c, e) && At(g, h, c, d)
    ensures At(g, h, c', d + e)
  {
  }

  lemma Fills(g: Group, h: Has, c': Counts, c: Counts)
    requires Moved(g, h, c', c, 1) && At(g, h, c, 0)
    ensures Full(g, h, c')
  {
  }

  lemma Empties(g: Group, h: Has, c': Counts, c: Counts)
    requires Moved(g, h, c', c, -1) && At(g, h, c, 1)
    ensures Idle(c')
  {
  }

  lemma NoneUp(g: Group, h: Has, c': Counts, c: Counts)
    requires Upto(g, h, c', c, 0)
    ensures c' == c
  {
  }

  lemma AllUp(g: Group, h: Has, c': Counts, c: Counts)
    ensures Upto(g, h, c', c, |c|) <==> Moved(g, h, c', c, 1)
  {
  }

  /** The counters of all controllers differ at most at i. */
  ghost predicate OnlyAt(a: seq<Counts>, b: seq<Counts>, i: nat) {
    |a| == |b| && forall j :: 0 <= j < |a| && j != i ==> a[j] == b[j]
  }

  ghost predicate Sized(c: seq<Counts>, n: nat, size: nat) {
    |c| == n && forall j :: 0 <= j < n ==> |c[j]| == size
  }

  /** No call yet. */
  ghost function Zeros(n: nat, size: nat): (z: seq<Counts>)
    ensures Sized(z, n, size)
    ensures forall j, k :: 0 <= j < n && 0 <= k < size ==> z[j][k] == 0
  {
    var c := seq(size, k => 0);
    seq(n, j => c)
  }

  function If(b: bool, d: int): int { if b then d else 0 }

  /** The link clocks a call is about: DSI_LINK_LP_CLK and DSI_LINK_HS_CLK as a bit set. */
  datatype LinkType = NONE | LP | HS | LP_HS {
    predicate lp() { this == LP || this == LP_HS }
    predicate hs() { this == HS || this == LP_HS }
  }

  class Clocks {
    const n: nat
    const master: nat
    const has: seq<Has>
    const onRc: seq<int>   // what the calls that switch something on return, in order
    const offRc: seq<int>  // what the calls that switch something off return, in order
    var onCalls: nat
    var offCalls: nat
    var splash: bool       // is_cont_splash_enabled: rates are left alone
    ghost var core: seq<Counts>
    ghost var hs: seq<Counts>
    ghost var lp: seq<Counts>
    // Ordered() has held after every call so far.
    ghost var ordered: bool
    // Depth of each group; `sound` until a call fails in a way that is not undone.
    ghost var coreDepth: int
    ghost var hsDepth: int
    ghost var lpDepth: int
    ghost var sound: bool

    ghost predicate Valid()
      reads this
    {
      1 <= n <= 2 && master < n && |has| == n && Sized(core, n, 7) && Sized(hs, n, 6) && Sized(lp, n, 2)
    }

    predicate OnOk() { forall k :: 0 <= k < |onRc| ==> onRc[k] == 0 }
    predicate OffOk() { forall k :: 0 <= k < |offRc| ==> offRc[k] == 0 }

    ghost predicate LinksIdle()
      reads this
      requires Valid()
    {
      Idle(hs[master]) && Idle(lp[master]) && (n == 2 ==> Idle(hs[1 - master]) && Idle(lp[1 - master]))
    }

    ghost predicate CoresFull()
      reads this
      requires Valid()
    {
      Full(CORE_LINES, has[master], core[master]) && (n == 2 ==> Full(CORE_LINES, has[1 - master], core[1 - master]))
    }

    /** The slave's lines of a group run only while the master's do. */
    ghost predicate MasterFirst(g: Group, c: seq<Counts>)
      requires 1 <= n <= 2 && master < n && |has| == |c| == n
    {
      n == 2 ==> Idle(c[1 - master]) || Full(g, has[master], c[master])
    }

    /** Link clocks run only over core clocks, and for each kind of clock the slave's run
        only while the master's do. */
    ghost predicate Ordered()
      reads this
      requires Valid()
    {
      (LinksIdle() || CoresFull()) &&
      MasterFirst(CORE_LINES, core) && MasterFirst(HS_LINES, hs) && MasterFirst(LP_LINES, lp)
    }

    /** Controller i's lines of a group may change with the slave's on only while the master's are. */
    ghost predicate Turn(g: Group, c: seq<Counts>, i: nat)
      requires 1 <= n <= 2 && master < n && |has| == |c| == n && i < n
    {
      n == 2 ==> if i == master then Idle(c[1 - i]) else Full(g, has[master], c[master])
    }

    constructor (n: nat, master: nat, has: seq<Has>, onRc: seq<int>, offRc: seq<int>)
      requires 1 <= n <= 2 && master < n && |has| == n
      ensures this.n == n && this.master == master && this.has == has
      ensures this.onRc == onRc && this.offRc == offRc
      ensures Valid() && ordered && sound && coreDepth == hsDepth == lpDepth == 0
      ensures onCalls == offCalls == 0 && !splash
      ensures CoreAt(0) && HsAt(0) && LpAt(0)
    {
      this.n, this.master, this.has, this.onRc, this.offRc := n, master, has, onRc, offRc;
      onCalls, offCalls, splash, ordered, sound := 0, 0, false, true, true;
      coreDepth, hsDepth, lpDepth := 0, 0, 0;
      core, hs, lp := Zeros(n, 7), Zeros(n, 6), Zeros(n, 2);
    }

    /** What the k-th call that switches something on returns. */
    function OnCode(k: nat): int {
      if k < |onRc| then onRc[k] else 0
    }

    /** The calls from a on, up to b, return 0. */
    ghost predicate Clean(a: nat, b: nat) {
      forall k :: a <= k < b ==> OnCode(k) == 0
    }

    /** Of n calls from a on, all were made up to b and returned 0; or the last one is the
        first that failed, with the code returned. */
    ghost predicate Ran(a: nat, b: nat, n: nat, rc: int) {
      if rc == 0 then b == a + n && Clean(a, b) else a < b <= a + n && Clean(a, b - 1) && OnCode(b - 1) == rc
    }

    lemma RanIff(a: nat, b: nat, n: nat, rc: int)
      requires Ran(a, b, n, rc)
      ensures rc == 0 <==> Clean(a, a + n)
    {
    }

    /** Further calls. */
    lemma RanOn(a: nat, b: nat, c: nat, n: nat, m: nat, rc: int)
      requires Ran(a, b, n, 0) && Ran(b, c, m, rc)
      ensures Ran(a, c, n + m, rc) && b == a + n
    {
    }

    /** Further calls were not made. */
    lemma RanShort(a: nat, b: nat, n: nat, m: nat, rc: int)
      requires Ran(a, b, n, rc) && rc != 0 && n <= m
      ensures Ran(a, b, m, rc)
    {
    }

    /** What the k-th call that drops the power or the bus vote returns. */
    function OffCode(k: nat): int {
      if k < |offRc| then offRc[k] else 0
    }

    /** As Ran, for the calls that drop the power or the bus vote. */
    ghost predicate RanOff(a: nat, b: nat, n: nat, rc: int) {
      if rc == 0
      then b == a + n && forall k :: a <= k < b ==> OffCode(k) == 0
      else a < b <= a + n && OffCode(b - 1) == rc && forall k :: a <= k < b - 1 ==> OffCode(k) == 0
    }

    method NextOn() returns (rc: int)
      modifies this`onCalls
      ensures rc == OnCode(old(onCalls)) && onCalls == old(onCalls) + 1 && (OnOk() ==> rc == 0)
    {
      rc := OnCode(onCalls);
      onCalls := onCalls + 1;
    }

    method NextOff() returns (rc: int)
      modifies this`offCalls
      ensures rc == OffCode(old(offCalls)) && offCalls == old(offCalls) + 1
      ensures OffOk() ==> rc == 0
    {
      rc := OffCode(offCalls);
      offCalls := offCalls + 1;
    }

    // -------------------------------------------------------------------
    // Core clocks
    // -------------------------------------------------------------------

    /** The core group of controller i may change without breaking the order. */
    ghost predicate CoreMayMove(i: nat)
      reads this
      requires Valid() && i < n
    {
      ordered && LinksIdle() && Turn(CORE_LINES, core, i)
    }

    /** Core line k of controller i moves by d; is the order still kept? */
    ghost method Note(i: nat, k: nat, d: int)
      requires Valid() && i < n && k < 7
      modifies this`core, this`ordered
      ensures Valid() && OnlyAt(core, old(core), i) && core[i] == old(core[i])[k := old(core[i])[k] + d]
      ensures old(CoreMayMove(i)) ==> CoreMayMove(i)
    {
      core := core[i := core[i][k := core[i][k] + d]];
      ordered := ordered && Ordered();
    }

    /** The core lines that controller i has from j on, below k. */
    function LinesOf(i: nat, j: nat, k: nat): nat
      requires i < n <= |has|
    {
      if j >= k then 0 else LinesOf(i, j, k - 1) + if Exists(CORE_LINES, has[i], k - 1) then 1 else 0
    }

    /** Switches on line k of controller i, where it has one; the lines before it are on. */
    method LineOn(i: nat, k: nat, ghost c: Counts) returns (rc: int)
      requires Valid() && i < n && k < 7 && Upto(CORE_LINES, has[i], core[i], c, k)
      modifies this`onCalls, this`core, this`ordered
      ensures Valid() && (OnOk() ==> rc == 0) && (old(CoreMayMove(i)) ==> CoreMayMove(i))
      ensures OnlyAt(core, old(core), i) && Upto(CORE_LINES, has[i], core[i], c, if rc == 0 then k + 1 else k)
      ensures Ran(old(onCalls), onCalls, LinesOf(i, k, k + 1), rc)
    {
      rc := 0;
      if Exists(CORE_LINES, has[i], k) {
        rc := NextOn();
        if rc == 0 {
          Note(i, k, 1);
        }
      }
    }

    /** Switches off line k of controller i, where it has one; the lines after it are off. */
    method LineOff(i: nat, k: nat, ghost c: Counts)
      requires Valid() && i < n && k < 6 && Upto(CORE_LINES, has[i], core[i], c, k + 1)
      modifies this`core, this`ordered
      ensures Valid() && (old(CoreMayMove(i)) ==> CoreMayMove(i))
      ensures OnlyAt(core, old(core), i) && Upto(CORE_LINES, has[i], core[i], c, k)
    {
      if Exists(CORE_LINES, has[i], k) {
        Note(i, k, -1);
      }
    }

    /** Switches off the power or the bus vote, which may fail. */
    method TryLineOff(i: nat, k: nat, ghost c: Counts) returns (rc: int)
      requires Valid() && i < n && k < 7
      modifies this`offCalls, this`core, this`ordered
      ensures Valid() && (OffOk() ==> rc == 0) && (old(CoreMayMove(i)) ==> CoreMayMove(i))
      ensures OnlyAt(core, old(core), i) && (rc != 0 ==> core[i] == old(core[i]))
      ensures rc == 0 && Upto(CORE_LINES, has[i], old(core[i]), c, k + 1) ==> Upto(CORE_LINES, has[i], core[i], c, k)
      ensures RanOff(old(offCalls), offCalls, LinesOf(i, k, k + 1), rc)
    {
      rc := 0;
      if Exists(CORE_LINES, has[i], k) {
        rc := NextOff();
        if rc == 0 {
          Note(i, k, -1);
        }
      }
    }

    /** The error labels of dsi_core_clk_start, entered with the lines below m on; also the
        clocks' part of dsi_core_clk_stop. */
    method Unwind(i: nat, m: nat, ghost c: Counts)
      requires Valid() && i < n && 1 <= m <= 6 && Upto(CORE_LINES, has[i], core[i], c, m)
      modifies this`core, this`ordered
      ensures Valid() && (old(CoreMayMove(i)) ==> CoreMayMove(i))
      ensures OnlyAt(core, old(core), i) && Upto(CORE_LINES, has[i], core[i], c, 1)
    {
      if m > MMSS {
        LineOff(i, MMSS, c);
      }
      if m > BUS {
        LineOff(i, BUS, c);
      }
      if m > IFACE {
        LineOff(i, IFACE, c);
      }
      if m > MNOC {
        LineOff(i, MNOC, c);
      }
      if m > MDP {
        LineOff(i, MDP, c);
      }
    }

    /** The three clocks that come first; the lines below m are on. */
    method StartFirst(i: nat, ghost c: Counts) returns (rc: int, m: nat)
      requires Valid() && i < n && Upto(CORE_LINES, has[i], core[i], c, 1)
      modifies this`onCalls, this`core, this`ordered
      ensures Valid() && (OnOk() ==> rc == 0) && (old(CoreMayMove(i)) ==> CoreMayMove(i))
      ensures OnlyAt(core, old(core), i) && Upto(CORE_LINES, has[i], core[i], c, m)
      ensures 1 <= m <= 4 && (rc == 0 ==> m == 4) && Ran(old(onCalls), onCalls, LinesOf(i, 1, 4), rc)
    {
      m := MDP;
      rc := LineOn(i, MDP, c);
      if rc == 0 {
        m := MNOC;
        rc := LineOn(i, MNOC, c);
      }
      if rc == 0 {
        m := IFACE;
        rc := LineOn(i, IFACE, c);
      }
      if rc == 0 {
        m := BUS;
      }
    }

    /** The other two clocks and the bus vote. */
    method StartLast(i: nat, ghost c: Counts) returns (rc: int, m: nat)
      requires Valid() && i < n && Upto(CORE_LINES, has[i], core[i], c, 4)
      modifies this`onCalls, this`core, this`ordered
      ensures Valid() && (OnOk() ==> rc == 0) && (old(CoreMayMove(i)) ==> CoreMayMove(i))
      ensures OnlyAt(core, old(core), i) && Upto(CORE_LINES, has[i], core[i], c, m)
      ensures 4 <= m <= 7 && (rc == 0 ==> m == 7) && (rc != 0 ==> m <= 6)
      ensures Ran(old(onCalls), onCalls, LinesOf(i, 4, 7), rc)
    {
      m := BUS;
      rc := LineOn(i, BUS, c);
      if rc == 0 {
        m := MMSS;
        rc := LineOn(i, MMSS, c);
      }
      if rc == 0 {
        m := VOTE;
        rc := LineOn(i, VOTE, c);
      }
      if rc == 0 {
        m := VOTE + 1;
      }
    }

    /** dsi_core_clk_start, with the power on. */
    method CoreClkStart(i: nat, ghost c: Counts) returns (rc: int)
      requires Valid() && i < n && Upto(CORE_LINES, has[i], core[i], c, 1)
      modifies this`onCalls, this`core, this`ordered
      ensures Valid() && (OnOk() ==> rc == 0) && (old(CoreMayMove(i)) ==> CoreMayMove(i))
      ensures OnlyAt(core, old(core), i) && Upto(CORE_LINES, has[i], core[i], c, if rc == 0 then 7 else 1)
      ensures Ran(old(onCalls), onCalls, LinesOf(i, 1, 7), rc)
    {
      hide CoreMayMove, Upto, Exists, OnOk, OnCode;
      var m;
      rc, m := StartFirst(i, c);
      if rc == 0 {
        rc, m := StartLast(i, c);
      }
      if rc != 0 {
        Unwind(i, m, c);
      }
    }

    /** dsi_core_clk_stop. */
    method CoreClkStop(i: nat, ghost c: Counts) returns (rc: int)
      requires Valid() && i < n && Upto(CORE_LINES, has[i], core[i], c, 7)
      modifies this`offCalls, this`core, this`ordered
      ensures Valid() && (OffOk() ==> rc == 0) && (old(CoreMayMove(i)) ==> CoreMayMove(i))
      ensures OnlyAt(core, old(core), i) && Upto(CORE_LINES, has[i], core[i], c, if rc == 0 then 1 else 7)
      ensures RanOff(old(offCalls), offCalls, LinesOf(i, 6, 7), rc)
    {
      rc := TryLineOff(i, VOTE, c);
      if rc == 0 {
        Unwind(i, VOTE, c);
      }
    }

    /** One controller of dsi_display_core_clk_enable: power, then clocks, or neither. */
    method CoreUp(i: nat) returns (rc: int)
      requires Valid() && i < n
      modifies this`onCalls, this`offCalls, this`core, this`ordered
      ensures Valid() && (OnOk() ==> rc == 0) && (old(CoreMayMove(i)) ==> CoreMayMove(i))
      ensures OnlyAt(core, old(core), i) && Ran(old(onCalls), onCalls, LinesOf(i, 0, 7), rc)
      ensures rc == 0 ==> Moved(CORE_LINES, has[i], core[i], old(core[i]), 1)
      ensures rc != 0 && OffOk() ==> core[i] == old(core[i])
    {
      hide CoreMayMove, Exists, OnOk, OnCode;
      ghost var c := core[i];
      rc := LineOn(i, POWER, c);
      if rc == 0 {
        rc := CoreClkStart(i, c);
        if rc != 0 {
          var _ := TryLineOff(i, POWER, c);
        }
      }
    }

    /** The bus vote and the power of controller i. */
    function DropsOf(i: nat): nat
      requires i < n <= |has|
    {
      LinesOf(i, 6, 7) + LinesOf(i, 0, 1)
    }

    /** One controller of dsi_display_core_clk_disable: clocks, then power. */
    method CoreDown(i: nat) returns (rc: int)
      requires Valid() && i < n
      modifies this`offCalls, this`core, this`ordered
      ensures Valid() && (OffOk() ==> rc == 0) && (old(CoreMayMove(i)) ==> CoreMayMove(i))
      ensures OnlyAt(core, old(core), i)
      ensures RanOff(old(offCalls), offCalls, DropsOf(i), rc)
      ensures rc == 0 ==> Moved(CORE_LINES, has[i], core[i], old(core[i]), -1)
    {
      ghost var c := Below(CORE_LINES, has[i], core[i]);
      rc := CoreClkStop(i, c);
      if rc == 0 {
        rc := TryLineOff(i, POWER, c);
        if rc == 0 {
          NoneUp(CORE_LINES, has[i], core[i], c);
        }
      }
    }

    /** Every core line of every controller is at depth d. */
    ghost predicate CoreAt(d: int)
      reads this
    {
      Valid() && LevelIs(CORE_LINES, core, d)
    }

    ghost predicate HsAt(d: int)
      reads this
    {
      Valid() && LevelIs(HS_LINES, hs, d)
    }

    ghost predicate LpAt(d: int)
      reads this
    {
      Valid() && LevelIs(LP_LINES, lp, d)
    }

    ghost predicate LevelIs(g: Group, c: seq<Counts>, d: int)
      requires 1 <= n <= 2 && master < n && |has| == |c| == n
    {
      At(g, has[master], c[master], d) && (n == 2 ==> At(g, has[1 - master], c[1 - master], d))
    }

    /** Every line of a group has moved by d on every controller. */
    ghost predicate AllMoved(g: Group, c': seq<Counts>, c: seq<Counts>, d: int)
      requires 1 <= n <= 2 && master < n && |has| == |c'| == |c| == n
    {
      Moved(g, has[master], c'[master], c[master], d) &&
      (n == 2 ==> Moved(g, has[1 - master], c'[1 - master], c[1 - master], d))
    }

    lemma LevelMoves(g: Group, c': seq<Counts>, c: seq<Counts>, e: int, d: int)
      requires 1 <= n <= 2 && master < n && |has| == |c'| == |c| == n
      requires AllMoved(g, c', c, e) && LevelIs(g, c, d)
      ensures LevelIs(g, c', d + e)
    {
      Steps(g, has[master], c'[master], c[master], e, d);
      if n == 2 {
        Steps(g, has[1 - master], c'[1 - master], c[1 - master], e, d);
      }
    }

    /** A slave's turn in dsi_display_core_clk_enable; a failure stops the master again. */
    method CoreSlaveUp(i: nat, ghost core0: seq<Counts>) returns (rc: int)
      requires Valid() && n == 2 && i == 1 - master && Sized(core0, n, 7)
      requires Moved(CORE_LINES, has[master], core[master], core0[master], 1) && core[i] == core0[i]
      modifies this`onCalls, this`offCalls, this`core, this`ordered
      ensures Valid() && (OnOk() ==> rc == 0) && (rc == 0 && old(CoreMayMove(i)) ==> CoreMayMove(i))
      ensures Ran(old(onCalls), onCalls, LinesOf(i, 0, 7), rc)
      ensures rc == 0 ==> AllMoved(CORE_LINES, core, core0, 1)
      ensures rc != 0 && OffOk() ==> core == core0
    {
      rc := CoreUp(i);
      if rc != 0 {
        AllUp(CORE_LINES, has[master], core[master], core0[master]);
        var _ := CoreClkStop(master, core0[master]);
        var _ := TryLineOff(master, POWER, core0[master]);
        if OffOk() {
          NoneUp(CORE_LINES, has[master], core[master], core0[master]);
          assert core[i] == core0[i] && core[master] == core0[master];
        }
      }
    }

    /** The loop of dsi_display_core_clk_enable over the controllers that are not the master. */
    method CoreSlavesUp(ghost core0: seq<Counts>) returns (rc: int)
      requires Valid() && Sized(core0, n, 7) && Moved(CORE_LINES, has[master], core[master], core0[master], 1)
      requires n == 2 ==> core[1 - master] == core0[1 - master]
      modifies this`onCalls, this`offCalls, this`core, this`ordered
      ensures Valid() && (OnOk() ==> rc == 0)
      ensures Ran(old(onCalls), onCalls, if n == 2 then LinesOf(1 - master, 0, 7) else 0, rc)
      ensures rc == 0 ==> AllMoved(CORE_LINES, core, core0, 1)
      ensures rc != 0 && OffOk() ==> core == core0
      ensures rc == 0 && old(ordered && (n == 2 ==> CoreMayMove(1 - master))) ==> ordered
    {
      ghost var a, mayMove := onCalls, ordered && (n == 2 ==> CoreMayMove(1 - master));
      rc := 0;
      var i := 0;
      while i < n
        invariant 0 <= i <= n && rc == 0 && Valid()
        invariant n == 2 && 1 - master < i ==> AllMoved(CORE_LINES, core, core0, 1)
        invariant !(n == 2 && 1 - master < i) ==>
          Moved(CORE_LINES, has[master], core[master], core0[master], 1) &&
          (n == 2 ==> core[1 - master] == core0[1 - master])
        invariant mayMove ==> ordered && (n == 2 ==> CoreMayMove(1 - master))
        invariant Ran(a, onCalls, if n == 2 && 1 - master < i then LinesOf(1 - master, 0, 7) else 0, 0)
      {
        if i != master {
          rc := CoreSlaveUp(i, core0);
          if rc != 0 {
            return;
          }
        }
        i := i + 1;
      }
    }

    /** dsi_display_core_clk_enable: the master first; the first call that fails ends it. */
    method CoreEnable() returns (rc: int)
      requires Valid()
      modifies this`onCalls, this`offCalls, this`core, this`ordered
      ensures Valid() && (OnOk() ==> rc == 0)
      ensures Ran(old(onCalls), onCalls, LinesOf(master, 0, 7) + if n == 2 then LinesOf(1 - master, 0, 7) else 0, rc)
      ensures rc == 0 ==> AllMoved(CORE_LINES, core, old(core), 1)
      ensures rc != 0 && OffOk() ==> core == old(core)
      ensures rc == 0 && old(ordered && LinksIdle() && CoreAt(0)) ==> ordered
    {
      ghost var core0, mayMove := core, ordered && LinksIdle() && CoreAt(0);
      if mayMove && n == 2 {
        Rests(CORE_LINES, has[1 - master], core[1 - master]);
      }
      rc := CoreUp(master);
      if rc == 0 {
        if mayMove {
          Fills(CORE_LINES, has[master], core[master], core0[master]);
        }
        rc := CoreSlavesUp(core0);
      } else if OffOk() {
        assert core[master] == core0[master];
      }
    }

    /** The loop of dsi_display_core_clk_disable. */
    method CoreSlavesDown() returns (rc: int)
      requires Valid()
      modifies this`offCalls, this`core, this`ordered
      ensures Valid() && (OffOk() ==> rc == 0) && core[master] == old(core[master])
      ensures RanOff(old(offCalls), offCalls, if n == 2 then DropsOf(1 - master) else 0, rc)
      ensures rc == 0 && n == 2 ==> Moved(CORE_LINES, has[1 - master], core[1 - master], old(core)[1 - master], -1)
      ensures rc == 0 && old(ordered && (n == 2 ==> CoreMayMove(1 - master))) ==>
        ordered && (n == 2 ==> CoreMayMove(1 - master))
    {
      ghost var core0, a, mayMove := core, offCalls, ordered && (n == 2 ==> CoreMayMove(1 - master));
      rc := 0;
      var i := 0;
      while i < n
        invariant 0 <= i <= n && rc == 0 && Valid() && core[master] == core0[master]
        invariant n == 2 && 1 - master < i ==>
          Moved(CORE_LINES, has[1 - master], core[1 - master], core0[1 - master], -1)
        invariant n == 2 && !(1 - master < i) ==> core[1 - master] == core0[1 - master]
        invariant mayMove ==> ordered && (n == 2 ==> CoreMayMove(1 - master))
        invariant RanOff(a, offCalls, if n == 2 && 1 - master < i then DropsOf(1 - master) else 0, 0)
      {
        if i != master {
          rc := CoreDown(i);
          if rc != 0 {
            return;
          }
        }
        i := i + 1;
      }
    }

    /** dsi_display_core_clk_disable: the master last. */
    method CoreDisable() returns (rc: int)
      requires Valid()
      modifies this`offCalls, this`core, this`ordered
      ensures Valid() && (OffOk() ==> rc == 0)
      ensures RanOff(old(offCalls), offCalls, DropsOf(master) + if n == 2 then DropsOf(1 - master) else 0, rc)
      ensures rc == 0 ==> AllMoved(CORE_LINES, core, old(core), -1)
      ensures rc == 0 && old(ordered && LinksIdle() && CoreAt(1)) ==> ordered
    {
      ghost var core0, mayMove := core, ordered && LinksIdle() && CoreAt(1);
      if mayMove {
        Rests(CORE_LINES, has[master], core[master]);
      }
      rc := CoreSlavesDown();
      if rc == 0 {
        if mayMove && n == 2 {
          Empties(CORE_LINES, has[1 - master], core[1 - master], core0[1 - master]);
        }
        rc := CoreDown(master);
      }
    }

    // -------------------------------------------------------------------
    // High-speed link clocks
    // -------------------------------------------------------------------

    ghost predicate HsMayMove(i: nat)
      reads this
      requires Valid() && i < n
    {
      ordered && CoresFull() && MasterFirst(CORE_LINES, core) && MasterFirst(LP_LINES, lp) && Turn(HS_LINES, hs, i)
    }

    ghost method NoteHs(i: nat, k: nat, d: int)
      requires Valid() && i < n && k < 6
      modifies this`hs, this`ordered
      ensures Valid() && OnlyAt(hs, old(hs), i) && hs[i] == old(hs[i])[k := old(hs[i])[k] + d]
      ensures old(HsMayMove(i)) ==> HsMayMove(i)
    {
      hs := hs[i := hs[i][k := hs[i][k] + d]];
      ordered := ordered && Ordered();
    }

    /** The high-speed clocks of controller i. */
    function HsClocks(i: nat): nat
      requires i < |has|
    {
      if INTF in has[i] then 3 else 2
    }

    /** The calls that start them: rates, except under continuous splash, prepare, enable. */
    function HsCalls(i: nat): nat
      reads this`splash
      requires i < |has|
    {
      (if splash then 0 else HsClocks(i)) + 2 * HsClocks(i)
    }

    /** clk_prepare or clk_enable of line k, where the controller has the clock. */
    method HsOn(i: nat, k: nat, ghost c: Counts) returns (rc: int)
      requires Valid() && i < n && k < 6 && Upto(HS_LINES, has[i], hs[i], c, k)
      modifies this`onCalls, this`hs, this`ordered
      ensures Valid() && (OnOk() ==> rc == 0) && (old(HsMayMove(i)) ==> HsMayMove(i))
      ensures OnlyAt(hs, old(hs), i) && Upto(HS_LINES, has[i], hs[i], c, if rc == 0 then k + 1 else k)
      ensures Ran(old(onCalls), onCalls, if Exists(HS_LINES, has[i], k) then 1 else 0, rc)
    {
      rc := 0;
      if Exists(HS_LINES, has[i], k) {
        rc := NextOn();
        if rc == 0 {
          NoteHs(i, k, 1);
        }
      }
    }

    /** clk_unprepare or clk_disable of line k, where the controller has the clock. */
    method HsOff(i: nat, k: nat, ghost c: Counts)
      requires Valid() && i < n && k < 6 && Upto(HS_LINES, has[i], hs[i], c, k + 1)
      modifies this`hs, this`ordered
      ensures Valid() && (old(HsMayMove(i)) ==> HsMayMove(i))
      ensures OnlyAt(hs, old(hs), i) && Upto(HS_LINES, has[i], hs[i], c, k)
    {
      if Exists(HS_LINES, has[i], k) {
        NoteHs(i, k, -1);
      }
    }

    /** dsi_link_hs_clk_prepare (base 0) and dsi_link_hs_clk_enable (base 3). */
    method HsThree(i: nat, base: nat, ghost c: Counts) returns (rc: int)
      requires Valid() && i < n && (base == 0 || base == 3) && Upto(HS_LINES, has[i], hs[i], c, base)
      modifies this`onCalls, this`hs, this`ordered
      ensures Valid() && (OnOk() ==> rc == 0) && (old(HsMayMove(i)) ==> HsMayMove(i))
      ensures OnlyAt(hs, old(hs), i) && Upto(HS_LINES, has[i], hs[i], c, if rc == 0 then base + 3 else base)
      ensures Ran(old(onCalls), onCalls, HsClocks(i), rc)
    {
      rc := HsOn(i, base, c);
      if rc != 0 {
        return;
      }
      rc := HsOn(i, base + 1, c);
      if rc == 0 {
        rc := HsOn(i, base + 2, c);
        if rc != 0 {
          HsOff(i, base + 1, c);
        }
      }
      if rc != 0 {
        HsOff(i, base, c);
      }
    }

    /** dsi_link_hs_clk_disable (base 3) and dsi_link_hs_clk_unprepare (base 0). */
    method HsThreeOff(i: nat, base: nat, ghost c: Counts)
      requires Valid() && i < n && (base == 0 || base == 3) && Upto(HS_LINES, has[i], hs[i], c, base + 3)
      modifies this`hs, this`ordered
      ensures Valid() && (old(HsMayMove(i)) ==> HsMayMove(i))
      ensures OnlyAt(hs, old(hs), i) && Upto(HS_LINES, has[i], hs[i], c, base)
    {
      HsOff(i, base + 2, c);
      HsOff(i, base + 1, c);
      HsOff(i, base, c);
    }

    /** dsi_link_hs_clk_set_rate: up to three calls, none under continuous splash. */
    method HsSetRate(i: nat) returns (rc: int)
      requires i < |has|
      modifies this`onCalls
      ensures OnOk() ==> rc == 0
      ensures Ran(old(onCalls), onCalls, if splash then 0 else HsClocks(i), rc)
    {
      if splash {
        return 0;
      }
      rc := NextOn();
      if rc == 0 {
        rc := NextOn();
        if rc == 0 && INTF in has[i] {
          rc := NextOn();
        }
      }
    }

    /** dsi_link_hs_clk_start: all of it or nothing. */
    method HsStart(i: nat) returns (rc: int)
      requires Valid() && i < n
      modifies this`onCalls, this`hs, this`ordered
      ensures Valid() && (OnOk() ==> rc == 0) && (old(HsMayMove(i)) ==> HsMayMove(i))
      ensures OnlyAt(hs, old(hs), i) && Ran(old(onCalls), onCalls, HsCalls(i), rc)
      ensures rc == 0 ==> Moved(HS_LINES, has[i], hs[i], old(hs[i]), 1)
      ensures rc != 0 ==> hs[i] == old(hs[i])
    {
      hide OnCode, Idle, Full, At;
      ghost var c := hs[i];
      rc := HsSetRate(i);
      if rc == 0 {
        rc := HsThree(i, 0, c);
        if rc == 0 {
          rc := HsThree(i, 3, c);
          if rc != 0 {
            HsThreeOff(i, 0, c);
          }
        }
      }
    }

    /** dsi_link_hs_clk_stop. */
    method HsStop(i: nat)
      requires Valid() && i < n
      modifies this`hs, this`ordered
      ensures Valid() && (old(HsMayMove(i)) ==> HsMayMove(i))
      ensures OnlyAt(hs, old(hs), i) && Moved(HS_LINES, has[i], hs[i], old(hs[i]), -1)
    {
      ghost var c := Below(HS_LINES, has[i], hs[i]);
      HsThreeOff(i, 3, c);
      HsThreeOff(i, 0, c);
      NoneUp(HS_LINES, has[i], hs[i], c);
    }

    // -------------------------------------------------------------------
    // Low-power link clock
    // -------------------------------------------------------------------

    ghost predicate LpMayMove(i: nat)
      reads this
      requires Valid() && i < n
    {
      ordered && CoresFull() && MasterFirst(CORE_LINES, core) && MasterFirst(HS_LINES, hs) && Turn(LP_LINES, lp, i)
    }

    ghost method NoteLp(i: nat, k: nat, d: int)
      requires Valid() && i < n && k < 2
      modifies this`lp, this`ordered
      ensures Valid() && OnlyAt(lp, old(lp), i) && lp[i] == old(lp[i])[k := old(lp[i])[k] + d]
      ensures old(LpMayMove(i)) ==> LpMayMove(i)
    {
      lp := lp[i := lp[i][k := lp[i][k] + d]];
      ordered := ordered && Ordered();
    }

    /** The escape clock of lp is prepared once less than in lp0. */
    ghost predicate Overdone(lp: Counts, lp0: Counts) {
      |lp| == |lp0| == 2 && lp[0] == lp0[0] - 1 && lp[1] == lp0[1]
    }

    /** The calls that start the escape clock: its rate, except under continuous splash, and
        prepare-enable. */
    function LpCalls(): nat
      reads this`splash
    {
      if splash then 1 else 2
    }

    /** A failing clk_prepare_enable has already undone its prepare; the code then
        unprepares once more.  A failing clk_set_rate leaves the clock alone. */
    method LpStart(i: nat) returns (rc: int)
      requires Valid() && i < n
      modifies this`onCalls, this`lp, this`ordered
      ensures Valid() && (OnOk() ==> rc == 0) && (old(LpMayMove(i)) ==> LpMayMove(i))
      ensures OnlyAt(lp, old(lp), i) && Ran(old(onCalls), onCalls, LpCalls(), rc)
      ensures rc == 0 ==> Moved(LP_LINES, has[i], lp[i], old(lp[i]), 1)
      ensures rc != 0 ==>
        if !splash && OnCode(old(onCalls)) != 0 then lp[i] == old(lp[i]) else Overdone(lp[i], old(lp[i]))
    {
      if !splash {
        rc := NextOn();
        if rc != 0 {
          return;
        }
      }
      rc := NextOn();
      if rc == 0 {
        NoteLp(i, 0, 1);
        NoteLp(i, 1, 1);
      } else {
        NoteLp(i, 0, -1);
      }
    }

    method LpStop(i: nat)
      requires Valid() && i < n
      modifies this`lp, this`ordered
      ensures Valid() && (old(LpMayMove(i)) ==> LpMayMove(i))
      ensures OnlyAt(lp, old(lp), i) && Moved(LP_LINES, has[i], lp[i], old(lp[i]), -1)
    {
      NoteLp(i, 1, -1);
      NoteLp(i, 0, -1);
    }

    // -------------------------------------------------------------------
    // Link clocks
    // -------------------------------------------------------------------

    /** The link clocks in l may change on controller i without breaking the order. */
    ghost predicate LinkMayMove(i: nat, l: LinkType)
      reads this
      requires Valid() && i < n
    {
      ordered && CoresFull() && MasterFirst(CORE_LINES, core) && (l.lp() ==> LpMayMove(i)) && (l.hs() ==> HsMayMove(i))
    }

    /** Controller i's link clocks have moved by d from where they were. */
    ghost predicate LinkMoved(i: nat, l: LinkType, d: int, hs0: seq<Counts>, lp0: seq<Counts>)
      reads this
      requires Valid() && i < n && |hs0| == |lp0| == n
    {
      Moved(HS_LINES, has[i], hs[i], hs0[i], if l.hs() then d else 0) &&
      Moved(LP_LINES, has[i], lp[i], lp0[i], if l.lp() then d else 0)
    }

    ghost predicate LinksMoved(l: LinkType, d: int, hs0: seq<Counts>, lp0: seq<Counts>)
      reads this
      requires Valid() && |hs0| == |lp0| == n
    {
      LinkMoved(master, l, d, hs0, lp0) && (n == 2 ==> LinkMoved(1 - master, l, d, hs0, lp0))
    }

    /** Only the link clocks in l have changed. */
    ghost predicate Spared(l: LinkType, hs0: seq<Counts>, lp0: seq<Counts>)
      reads this
    {
      (!l.lp() ==> lp == lp0) && (!l.hs() ==> hs == hs0)
    }

    /** The calls that start the link clocks in l on controller i. */
    function LinkCalls(i: nat, l: LinkType): nat
      reads this`splash
      requires i < |has|
    {
      (if l.lp() then LpCalls() else 0) + if l.hs() then HsCalls(i) else 0
    }

    /** What a failed start of the link clocks in l, from call a on, leaves behind on controller
        i: the high-speed clocks are as before.  The escape clock is as before when its rate
        was refused, and unprepared once too often when it was itself; when the high-speed
        clocks failed it is still on, if it was to start. */
    ghost predicate StartFailed(i: nat, l: LinkType, a: nat, hs0: seq<Counts>, lp0: seq<Counts>)
      reads this
      requires Valid() && i < n && |hs0| == |lp0| == n
    {
      hs[i] == hs0[i] &&
      if l.lp() && !Clean(a, a + LpCalls()) then
        if !splash && OnCode(a) != 0 then lp[i] == lp0[i] else Overdone(lp[i], lp0[i])
      else Moved(LP_LINES, has[i], lp[i], lp0[i], if l.lp() then 1 else 0)
    }

    /** What it leaves behind on all of them.  When the slave fails, the master's clocks are
        stopped again, unless both kinds were asked for: then they stay on. */
    ghost predicate EnableFailed(l: LinkType, a: nat, hs0: seq<Counts>, lp0: seq<Counts>)
      reads this
      requires Valid() && |hs0| == |lp0| == n
    {
      if Clean(a, a + LinkCalls(master, l)) then
        n == 2 && StartFailed(1 - master, l, a + LinkCalls(master, l), hs0, lp0) && MasterLeft(l, hs0, lp0)
      else StartFailed(master, l, a, hs0, lp0) && SlaveSame(hs0, lp0)
    }

    ghost predicate MasterLeft(l: LinkType, hs0: seq<Counts>, lp0: seq<Counts>)
      reads this
      requires Valid() && |hs0| == |lp0| == n
    {
      if l == LP_HS then LinkMoved(master, l, 1, hs0, lp0) else hs[master] == hs0[master] && lp[master] == lp0[master]
    }

    /** Whether all counts are as before such a failure. */
    lemma EnableUndone(l: LinkType, a: nat, hs0: seq<Counts>, lp0: seq<Counts>)
      requires Valid() && Sized(hs0, n, 6) && Sized(lp0, n, 2) && EnableFailed(l, a, hs0, lp0)
      requires !Clean(a, a + EnableCalls(l))
      ensures hs == hs0 && lp == lp0 <==>
        match l
        case LP_HS => !splash && OnCode(a) != 0
        case LP => !splash && (OnCode(a) != 0 || (OnCode(a + 1) == 0 && OnCode(a + 2) != 0))
        case _ => true
    {
      hide Upto, At, Idle, Full, Ordered, HsClocks, HsCalls;
      LpCleanIff(a);
      OnlyTwo(hs, hs0);
      OnlyTwo(lp, lp0);
      if Clean(a, a + LinkCalls(master, l)) {
        var b := a + LinkCalls(master, l);
        LpCleanIff(b);
        assert !Clean(b, a + EnableCalls(l));
        StartUndone(1 - master, l, b, hs0, lp0);
        assert l.lp() ==> forall k :: a <= k < a + LpCalls() ==> OnCode(k) == 0;
        assert l == LP_HS ==> lp[master][0] == lp0[master][0] + 1;
      } else {
        StartUndone(master, l, a, hs0, lp0);
      }
    }

    lemma StartUndone(i: nat, l: LinkType, a: nat, hs0: seq<Counts>, lp0: seq<Counts>)
      requires Valid() && i < n && Sized(hs0, n, 6) && Sized(lp0, n, 2) && StartFailed(i, l, a, hs0, lp0)
      requires !Clean(a, a + LinkCalls(i, l))
      ensures hs[i] == hs0[i] && (lp[i] == lp0[i] <==> l.lp() ==> !splash && OnCode(a) != 0)
    {
      LpCleanIff(a);
      if Moved(LP_LINES, has[i], lp[i], lp0[i], 0) {
        assert lp[i] == lp0[i];
      }
      if Moved(LP_LINES, has[i], lp[i], lp0[i], 1) {
        assert lp[i][0] == lp0[i][0] + 1;
      }
    }

    lemma LpCleanIff(a: nat)
      ensures Clean(a, a + LpCalls()) <==> OnCode(a) == 0 && (splash || OnCode(a + 1) == 0)
    {
    }

    lemma OnlyTwo(c: seq<Counts>, c0: seq<Counts>)
      requires 1 <= n <= 2 && master < n && |c| == |c0| == n
      ensures c == c0 <==> c[master] == c0[master] && (n == 2 ==> c[1 - master] == c0[1 - master])
    {
    }

    /** One controller of dsi_display_link_clk_enable. */
    method LinkUp(i: nat, l: LinkType) returns (rc: int)
      requires Valid() && i < n
      modifies this`onCalls, this`hs, this`lp, this`ordered
      ensures Valid() && (OnOk() ==> rc == 0) && (old(LinkMayMove(i, l)) ==> LinkMayMove(i, l))
      ensures OnlyAt(hs, old(hs), i) && OnlyAt(lp, old(lp), i) && Spared(l, old(hs), old(lp))
      ensures rc == 0 ==> LinkMoved(i, l, 1, old(hs), old(lp))
      ensures Ran(old(onCalls), onCalls, LinkCalls(i, l), rc)
      ensures rc != 0 ==> hs == old(hs) && StartFailed(i, l, old(onCalls), old(hs), old(lp))
    {
      hide OnCode, OnOk, Overdone, HsCalls, LpCalls;
      rc := 0;
      ghost var a := onCalls;
      if l.lp() {
        rc := LpStart(i);
        RanIff(a, onCalls, LpCalls(), rc);
      }
      if rc == 0 && l.hs() {
        rc := HsStart(i);
      }
    }

    /** One controller of dsi_display_link_clk_disable. */
    method LinkDown(i: nat, l: LinkType)
      requires Valid() && i < n
      modifies this`hs, this`lp, this`ordered
      ensures Valid() && (old(LinkMayMove(i, l)) ==> LinkMayMove(i, l))
      ensures OnlyAt(hs, old(hs), i) && OnlyAt(lp, old(lp), i) && Spared(l, old(hs), old(lp))
      ensures LinkMoved(i, l, -1, old(hs), old(lp))
    {
      if l.lp() {
        LpStop(i);
      }
      if l.hs() {
        HsStop(i);
      }
    }

    /** The link clocks in l are at depth d on all controllers. */
    ghost predicate LinkAt(l: LinkType, d: int)
      reads this
    {
      (l.lp() ==> LpAt(d)) && (l.hs() ==> HsAt(d))
    }

    /** The slave is untouched by a change of the link clocks. */
    ghost predicate SlaveSame(hs0: seq<Counts>, lp0: seq<Counts>)
      reads this
      requires Valid() && |hs0| == |lp0| == n
    {
      n == 2 ==> hs[1 - master] == hs0[1 - master] && lp[1 - master] == lp0[1 - master]
    }

    /** A slave's turn in dsi_display_link_clk_enable; a failure stops the master again. */
    method SlaveUp(i: nat, l: LinkType, ghost hs0: seq<Counts>, ghost lp0: seq<Counts>) returns (rc: int)
      requires Valid() && n == 2 && i == 1 - master && |hs0| == |lp0| == 2
      requires LinkMoved(master, l, 1, hs0, lp0) && SlaveSame(hs0, lp0) && Spared(l, hs0, lp0)
      modifies this`onCalls, this`hs, this`lp, this`ordered
      ensures Valid() && (OnOk() ==> rc == 0) && (rc == 0 && old(LinkMayMove(i, l)) ==> LinkMayMove(i, l))
      ensures rc == 0 ==> LinksMoved(l, 1, hs0, lp0) && Spared(l, hs0, lp0)
      ensures rc != 0 && l == HS ==> hs == hs0 && lp == lp0
      ensures Ran(old(onCalls), onCalls, LinkCalls(i, l), rc)
      ensures rc != 0 ==> StartFailed(i, l, old(onCalls), hs0, lp0) && MasterLeft(l, hs0, lp0)
    {
      rc := LinkUp(i, l);
      if rc != 0 {
        if l == LP {
          LpStop(master);
          assert hs[master] == hs0[master] && lp[master] == lp0[master];
        } else if l == HS {
          HsStop(master);
          assert hs[master] == hs0[master] && hs[i] == hs0[i];
        }
      }
    }

    /** The loop of dsi_display_link_clk_enable over the controllers that are not the master. */
    method SlavesUp(l: LinkType, ghost hs0: seq<Counts>, ghost lp0: seq<Counts>) returns (rc: int)
      requires Valid() && |hs0| == |lp0| == n
      requires LinkMoved(master, l, 1, hs0, lp0) && SlaveSame(hs0, lp0) && Spared(l, hs0, lp0)
      modifies this`onCalls, this`hs, this`lp, this`ordered
      ensures Valid() && (OnOk() ==> rc == 0)
      ensures rc == 0 ==> LinksMoved(l, 1, hs0, lp0) && Spared(l, hs0, lp0)
      ensures rc != 0 && l == HS ==> hs == hs0 && lp == lp0
      ensures Ran(old(onCalls), onCalls, if n == 2 then LinkCalls(1 - master, l) else 0, rc)
      ensures rc != 0 ==>
        n == 2 && StartFailed(1 - master, l, old(onCalls), hs0, lp0) && MasterLeft(l, hs0, lp0)
      ensures rc == 0 && old(ordered && (n == 2 ==> LinkMayMove(1 - master, l))) ==> ordered
    {
      hide StartFailed, LinkCalls, LinkMoved, OnCode, OnOk, LinkMayMove;
      ghost var mayMove := ordered && (n == 2 ==> LinkMayMove(1 - master, l));
      ghost var a := onCalls;
      rc := 0;
      var i := 0;
      while i < n
        invariant 0 <= i <= n && rc == 0 && Valid() && Spared(l, hs0, lp0)
        invariant n == 2 && 1 - master < i ==> LinksMoved(l, 1, hs0, lp0)
        invariant !(n == 2 && 1 - master < i) ==> LinkMoved(master, l, 1, hs0, lp0) && SlaveSame(hs0, lp0)
        invariant mayMove ==> ordered && (n == 2 ==> LinkMayMove(1 - master, l))
        invariant Ran(a, onCalls, if n == 2 && 1 - master < i then LinkCalls(1 - master, l) else 0, 0)
      {
        if i != master {
          rc := SlaveUp(i, l, hs0, lp0);
          if rc != 0 {
            return;
          }
        }
        i := i + 1;
      }
    }

    /** Once the master's link clocks in l are on, the slave may start. */
    lemma SlaveMayStart(l: LinkType, hs0: seq<Counts>, lp0: seq<Counts>)
      requires Valid() && LinkMayMove(master, l) && n == 2 && Sized(hs0, n, 6) && Sized(lp0, n, 2)
      requires LinkMoved(master, l, 1, hs0, lp0)
      requires l.hs() ==> At(HS_LINES, has[master], hs0[master], 0)
      requires l.lp() ==> At(LP_LINES, has[master], lp0[master], 0)
      ensures LinkMayMove(1 - master, l)
    {
      if l.hs() {
        Fills(HS_LINES, has[master], hs[master], hs0[master]);
      }
      if l.lp() {
        Fills(LP_LINES, has[master], lp[master], lp0[master]);
      }
    }

    /** The master's turn in dsi_display_link_clk_enable. */
    method MasterUp(l: LinkType) returns (rc: int)
      requires Valid()
      modifies this`onCalls, this`hs, this`lp, this`ordered
      ensures Valid() && (OnOk() ==> rc == 0) && Spared(l, old(hs), old(lp)) && SlaveSame(old(hs), old(lp))
      ensures rc == 0 ==> LinkMoved(master, l, 1, old(hs), old(lp))
      ensures Ran(old(onCalls), onCalls, LinkCalls(master, l), rc)
      ensures rc != 0 ==> hs == old(hs) && StartFailed(master, l, old(onCalls), old(hs), old(lp))
      ensures rc == 0 && old(LinkMayMove(master, l) && LinkAt(l, 0)) ==>
        ordered && (n == 2 ==> LinkMayMove(1 - master, l))
    {
      ghost var hs0, lp0, mayMove := hs, lp, LinkMayMove(master, l) && LinkAt(l, 0);
      rc := LinkUp(master, l);
      if rc == 0 && mayMove && n == 2 {
        SlaveMayStart(l, hs0, lp0);
      }
    }

    /** The calls that start the link clocks in l on all controllers. */
    function EnableCalls(l: LinkType): nat
      reads this`splash
      requires |has| == n && master < n
    {
      LinkCalls(master, l) + if n == 2 then LinkCalls(1 - master, l) else 0
    }

    /** dsi_display_link_clk_enable: the master first.  The high-speed clocks alone start all
        or not at all.  The others do so only if a rate is refused: that of the first escape
        clock or, when it is the escape clocks alone, that of either. */
    method LinkEnable(l: LinkType) returns (rc: int)
      requires Valid()
      modifies this`onCalls, this`hs, this`lp, this`ordered
      ensures Valid() && (OnOk() ==> rc == 0)
      ensures rc == 0 ==> LinksMoved(l, 1, old(hs), old(lp)) && Spared(l, old(hs), old(lp))
      ensures Ran(old(onCalls), onCalls, EnableCalls(l), rc)
      ensures rc != 0 ==> EnableFailed(l, old(onCalls), old(hs), old(lp))
      ensures rc != 0 ==>
        (hs == old(hs) && lp == old(lp) <==>
          match l
          case LP_HS => !splash && OnCode(old(onCalls)) != 0
          case LP =>
            !splash && (OnCode(old(onCalls)) != 0 ||
                        (OnCode(old(onCalls) + 1) == 0 && OnCode(old(onCalls) + 2) != 0))
          case _ => true)
      ensures rc == 0 && old(LinkMayMove(master, l) && LinkAt(l, 0)) ==> ordered
    {
      hide Clean, OnCode, Ran, StartFailed, LinkCalls, Moved, Idle, Full, At;
      ghost var hs0, lp0, a := hs, lp, onCalls;
      rc := MasterUp(l);
      ghost var b := onCalls;
      RanIff(a, b, LinkCalls(master, l), rc);
      if rc == 0 {
        rc := SlavesUp(l, hs0, lp0);
        RanOn(a, b, onCalls, LinkCalls(master, l), if n == 2 then LinkCalls(1 - master, l) else 0, rc);
      } else {
        RanShort(a, b, LinkCalls(master, l), EnableCalls(l), rc);
      }
      if rc != 0 {
        RanIff(a, onCalls, EnableCalls(l), rc);
        EnableUndone(l, a, hs0, lp0);
      }
    }

    /** The loop of dsi_display_link_clk_disable. */
    method SlavesDown(l: LinkType)
      requires Valid()
      modifies this`hs, this`lp, this`ordered
      ensures Valid() && hs[master] == old(hs[master]) && lp[master] == old(lp[master])
      ensures Spared(l, old(hs), old(lp))
      ensures n == 2 ==> LinkMoved(1 - master, l, -1, old(hs), old(lp))
      ensures old(ordered && (n == 2 ==> LinkMayMove(1 - master, l))) ==>
        ordered && (n == 2 ==> LinkMayMove(1 - master, l))
    {
      ghost var hs0, lp0, mayMove := hs, lp, ordered && (n == 2 ==> LinkMayMove(1 - master, l));
      var i := 0;
      while i < n
        invariant 0 <= i <= n && Valid() && hs[master] == hs0[master] && lp[master] == lp0[master]
        invariant Spared(l, hs0, lp0)
        invariant n == 2 && 1 - master < i ==> LinkMoved(1 - master, l, -1, hs0, lp0)
        invariant !(n == 2 && 1 - master < i) ==> SlaveSame(hs0, lp0)
        invariant mayMove ==> ordered && (n == 2 ==> LinkMayMove(1 - master, l))
      {
        if i != master {
          LinkDown(i, l);
        }
        i := i + 1;
      }
    }

    /** While the master's link clocks in l are on, the slave may stop. */
    lemma SlaveMayStop(l: LinkType)
      requires Valid() && ordered && Ordered() && CoresFull() && n == 2 && LinkAt(l, 1)
      ensures LinkMayMove(1 - master, l)
    {
      if l.hs() {
        Rests(HS_LINES, has[master], hs[master]);
      }
      if l.lp() {
        Rests(LP_LINES, has[master], lp[master]);
      }
    }

    /** With the slave's link clocks in l off, the master may stop. */
    lemma SlaveStopped(l: LinkType, hs0: seq<Counts>, lp0: seq<Counts>)
      requires Valid() && n == 2 && LinkMayMove(1 - master, l) && Sized(hs0, n, 6) && Sized(lp0, n, 2)
      requires LinkMoved(1 - master, l, -1, hs0, lp0)
      requires l.hs() ==> At(HS_LINES, has[1 - master], hs0[1 - master], 1)
      requires l.lp() ==> At(LP_LINES, has[1 - master], lp0[1 - master], 1)
      ensures LinkMayMove(master, l)
    {
      if l.hs() {
        Empties(HS_LINES, has[1 - master], hs[1 - master], hs0[1 - master]);
      }
      if l.lp() {
        Empties(LP_LINES, has[1 - master], lp[1 - master], lp0[1 - master]);
      }
    }

    /** dsi_display_link_clk_disable: the master last. */
    method LinkDisable(l: LinkType)
      requires Valid()
      modifies this`hs, this`lp, this`ordered
      ensures Valid() && LinksMoved(l, -1, old(hs), old(lp)) && Spared(l, old(hs), old(lp))
      ensures old(ordered && Ordered() && CoresFull() && LinkAt(l, 1)) ==> ordered
    {
      ghost var hs0, lp0, mayMove := hs, lp, ordered && Ordered() && CoresFull() && LinkAt(l, 1);
      if mayMove && n == 2 {
        SlaveMayStop(l);
      }
      SlavesDown(l);
      if mayMove && n == 2 {
        SlaveStopped(l, hs0, lp0);
      }
      LinkDown(master, l);
    }

    // -------------------------------------------------------------------
    // Depths: what the clock manager needs to know
    // -------------------------------------------------------------------

    /** A group at rest, all on or all off, is in order. */
    lemma GroupRests(g: Group, c: seq<Counts>, d: int)
      requires 1 <= n <= 2 && master < n && |has| == |c| == n && LevelIs(g, c, d) && 0 <= d <= 1
      ensures MasterFirst(g, c)
      ensures d == 0 ==> Idle(c[master]) && (n == 2 ==> Idle(c[1 - master]))
      ensures d == 1 ==> Full(g, has[master], c[master]) && (n == 2 ==> Full(g, has[1 - master], c[1 - master]))
    {
      Rests(g, has[master], c[master]);
      if n == 2 {
        Rests(g, has[1 - master], c[1 - master]);
      }
    }

    /** Between transitions, with link clocks on only over core clocks, all is in order. */
    lemma RestOrdered(c: int, h: int, p: int)
      requires CoreAt(c) && HsAt(h) && LpAt(p)
      requires 0 <= c <= 1 && 0 <= h <= c && 0 <= p <= c
      ensures (c == 1 ==> CoresFull()) && (h == p == 0 ==> LinksIdle()) && Ordered()
    {
      GroupRests(CORE_LINES, core, c);
      GroupRests(HS_LINES, hs, h);
      GroupRests(LP_LINES, lp, p);
    }

    /** And the kinds of link clock that are off may be switched on. */
    lemma RestMayStart(l: LinkType, h: int, p: int)
      requires ordered && CoreAt(1) && HsAt(h) && LpAt(p) && 0 <= h <= 1 && 0 <= p <= 1
      requires (l.hs() ==> h == 0) && (l.lp() ==> p == 0)
      ensures LinkMayMove(master, l)
    {
      GroupRests(CORE_LINES, core, 1);
      GroupRests(HS_LINES, hs, h);
      GroupRests(LP_LINES, lp, p);
    }

    /** Levels, controller by controller. */
    lemma Each(i: nat, c: int, h: int, p: int)
      requires CoreAt(c) && HsAt(h) && LpAt(p) && i < n
      ensures At(CORE_LINES, has[i], core[i], c) && At(HS_LINES, has[i], hs[i], h) && At(LP_LINES, has[i], lp[i], p)
    {
      assert i == master || i == 1 - master;
    }

    lemma LinksStep(l: LinkType, e: int, hs0: seq<Counts>, lp0: seq<Counts>, h: int, p: int)
      requires Valid() && |hs0| == |lp0| == n && LinksMoved(l, e, hs0, lp0)
      ensures LevelIs(HS_LINES, hs0, h) ==> HsAt(h + if l.hs() then e else 0)
      ensures LevelIs(LP_LINES, lp0, p) ==> LpAt(p + if l.lp() then e else 0)
    {
      if LevelIs(HS_LINES, hs0, h) {
        LevelMoves(HS_LINES, hs, hs0, if l.hs() then e else 0, h);
      }
      if LevelIs(LP_LINES, lp0, p) {
        LevelMoves(LP_LINES, lp, lp0, if l.lp() then e else 0, p);
      }
    }

    /** Every group stands at its depth on all controllers, unless a call has failed in a
        way that the code does not undo. */
    ghost predicate Sound()
      reads this
    {
      Valid() && (sound ==> CoreAt(coreDepth) && HsAt(hsDepth) && LpAt(lpDepth))
    }

    /** dsi_display_core_clk_enable. */
    method CoresOn() returns (rc: int)
      requires Sound()
      modifies this`onCalls, this`offCalls, this`core, this`ordered, this`coreDepth, this`sound
      ensures Sound() && (OnOk() ==> rc == 0)
      ensures rc == 0 || OffOk() ==> sound == old(sound)
      ensures coreDepth == old(coreDepth) + If(rc == 0, 1)
      ensures rc == 0 && old(ordered && sound) && old(coreDepth) == hsDepth == lpDepth == 0 ==> ordered
    {
      ghost var core0 := core;
      if ordered && sound && coreDepth == 0 && hsDepth == 0 && lpDepth == 0 {
        RestOrdered(0, 0, 0);
      }
      rc := CoreEnable();
      if rc == 0 {
        coreDepth := coreDepth + 1;
        if sound {
          LevelMoves(CORE_LINES, core, core0, 1, coreDepth - 1);
        }
      } else {
        sound := sound && OffOk();
      }
    }

    /** The core clocks may be switched off in order. */
    ghost predicate CoresReady()
      reads this
    {
      ordered && sound && coreDepth == 1 && hsDepth == 0 && lpDepth == 0
    }

    /** dsi_display_core_clk_disable. */
    method CoresOff() returns (rc: int)
      requires Sound()
      modifies this`offCalls, this`core, this`ordered, this`coreDepth, this`sound
      ensures Sound() && (OffOk() ==> rc == 0)
      ensures rc == 0 ==> sound == old(sound)
      ensures coreDepth == old(coreDepth) - If(rc == 0, 1)
      ensures rc == 0 && old(CoresReady()) ==> ordered
    {
      ghost var core0 := core;
      if CoresReady() {
        RestOrdered(1, 0, 0);
      }
      rc := CoreDisable();
      if rc == 0 {
        coreDepth := coreDepth - 1;
        if sound {
          LevelMoves(CORE_LINES, core, core0, -1, coreDepth + 1);
        }
      } else {
        sound := false;
      }
    }

    /** The link clocks may change in order when the core clocks are on and those in l are
        at depth d. */
    ghost predicate LinksReady(l: LinkType, d: int)
      reads this
    {
      ordered && sound && coreDepth == 1 && 0 <= hsDepth <= 1 && 0 <= lpDepth <= 1 &&
      (l.hs() ==> hsDepth == d) && (l.lp() ==> lpDepth == d)
    }

    /** dsi_display_link_clk_enable. */
    method LinksOn(l: LinkType) returns (rc: int)
      requires Sound()
      modifies this`onCalls, this`hs, this`lp, this`ordered, this`hsDepth, this`lpDepth, this`sound
      ensures Sound() && (OnOk() ==> rc == 0)
      ensures rc == 0 || l == HS ==> sound == old(sound)
      ensures hsDepth == old(hsDepth) + If(rc == 0 && l.hs(), 1) && lpDepth == old(lpDepth) + If(rc == 0 && l.lp(), 1)
      ensures rc == 0 && old(LinksReady(l, 0)) ==> ordered
    {
      ghost var hs0, lp0, ready := hs, lp, LinksReady(l, 0);
      if ready {
        RestMayStart(l, hsDepth, lpDepth);
      }
      rc := LinkEnable(l);
      if rc == 0 {
        LinksStep(l, 1, hs0, lp0, hsDepth, lpDepth);
        hsDepth, lpDepth := hsDepth + If(l.hs(), 1), lpDepth + If(l.lp(), 1);
      } else {
        sound := sound && l == HS;
      }
    }

    /** dsi_display_link_clk_disable. */
    method LinksOff(l: LinkType)
      requires Sound()
      modifies this`hs, this`lp, this`ordered, this`hsDepth, this`lpDepth
      ensures Sound()
      ensures hsDepth == old(hsDepth) - If(l.hs(), 1) && lpDepth == old(lpDepth) - If(l.lp(), 1)
      ensures old(LinksReady(l, 1)) ==> ordered
    {
      ghost var hs0, lp0 := hs, lp;
      if LinksReady(l, 1) {
        RestOrdered(1, hsDepth, lpDepth);
      }
      LinkDisable(l);
      LinksStep(l, -1, hs0, lp0, hsDepth, lpDepth);
      hsDepth, lpDepth := hsDepth - If(l.hs(), 1), lpDepth - If(l.lp(), 1);
    }
  }

  /** Two controllers, and a refused rate of the slave's escape clock: the master stays on. */
  method MasterStaysOn() returns (c: Clocks)
    ensures fresh(c) && c.Valid() && c.n == 2 && c.master == 0
    ensures c.hs[0] == [1, 1, 0, 1, 1, 0] && c.lp[0] == [1, 1]
    ensures c.hs[1] == [0, 0, 0, 0, 0, 0] && c.lp[1] == [0, 0]
  {
    c := new Clocks(2, 0, [{}, {}], [0, 0, 0, 0, 0, 0, 0, 0, -5], []);
    ghost var hs0, lp0, a := c.hs, c.lp, c.onCalls;
    assert c.LinkCalls(0, LP_HS) == 8 && c.EnableCalls(LP_HS) == 16 && c.OnCode(8) == -5;
    var rc := c.LinkEnable(LP_HS);
    c.RanIff(a, c.onCalls, 16, rc);
    assert rc != 0 && c.Clean(a, 8) && !c.Clean(8, 10);
    assert c.LinkMoved(0, LP_HS, 1, hs0, lp0) && c.StartFailed(1, LP_HS, 8, hs0, lp0);
  }

  /** Only the clocks a controller has are switched: here the ones at places 2 and 5, and the
      byte-interface clock. */
  method PresentClocksOnly() returns (c: Clocks)
    ensures fresh(c) && c.Valid() && c.n == 1
    ensures c.core[0] == [1, 0, 1, 0, 0, 1, 0] && c.hs[0] == [1, 1, 1, 1, 1, 1] && c.lp[0] == [1, 1]
  {
    c := new Clocks(1, 0, [{2, 5, 7}], [], []);
    var rc := c.CoreEnable();
    assert c.core[0] == [1, 0, 1, 0, 0, 1, 0];
    rc := c.LinkEnable(LP_HS);
  }
}
