// The guarded state machine of a DSI controller, the supplies that depend on it, and
// the registers that mirror it.

module CtrlState {
  import opened Supply
  import opened Words

  // ---------------------------------------------------------------------
  // The state machine
  // ---------------------------------------------------------------------

  /** The fields of struct dsi_ctrl_state_info. */
  datatype Flag = POWER | ENGINE | VID | CMD | HOST | TPG

  // A state is the set of the fields that are ON (or true).

  /** Whether dsi_ctrl_check_state lets a field be set. */
  predicate Accepts(st: set<Flag>, f: Flag, on: bool) {
    (f in st) != on &&
    match f
    case POWER => !(POWER in st && VID in st)
    case ENGINE => POWER in st && (!on ==> CMD !in st && VID !in st)
    case CMD => POWER in st && ENGINE in st
    case VID => POWER in st && ENGINE in st
    case TPG => POWER in st && ENGINE in st
    case HOST => POWER in st
  }

  /** dsi_ctrl_update_state. */
  function Updated(st: set<Flag>, f: Flag, on: bool): set<Flag> {
    if on then st + {f} else st - {f}
  }

  /** The fields with an enumerated value, of which those above 1 are invalid. */
  type Setting = f: Flag | f != HOST && f != TPG witness POWER

  /** The requests of dsi_ctrl.h that change the state, and the soft reset: setting power or
      an engine; marking the host (dsi_ctrl_update_host_state, dsi_ctrl_host_deinit);
      initialising it, with the registers or without; the test pattern, for a command or a
      video panel. */
  datatype Op =
    | Put(f: Setting, value: nat)
    | MarkHost(on: bool)
    | InitHost(splash: bool, cfg: HostConfig)
    | SetTpg(on: bool, cmd: bool)
    | SoftReset

  predicate Allows(st: set<Flag>, op: Op) {
    match op
    case Put(f, value) => value <= 1 && Accepts(st, f, value == 1)
    case MarkHost(on) => Accepts(st, HOST, on)
    case InitHost(_, _) => Accepts(st, HOST, true)
    case SetTpg(on, _) => Accepts(st, TPG, on)
    case SoftReset => false
  }

  function Next(st: set<Flag>, op: Op): set<Flag> {
    if !Allows(st, op) then st
    else
      match op
      case Put(f, value) => Updated(st, f, value == 1)
      case MarkHost(on) => Updated(st, HOST, on)
      case InitHost(_, _) => Updated(st, HOST, true)
      case SetTpg(on, _) => Updated(st, TPG, on)
      case SoftReset => st
  }

  function RunFlags(ops: seq<Op>): set<Flag> {
    if ops == [] then {} else Next(RunFlags(ops[..|ops| - 1]), ops[|ops| - 1])
  }

  /** A running video engine has controller and power; a running command engine a controller. */
  predicate Safe(st: set<Flag>) {
    (VID in st ==> ENGINE in st && POWER in st) && (CMD in st ==> ENGINE in st)
  }

  lemma StepSafe(st: set<Flag>, op: Op)
    requires Safe(st)
    ensures Safe(Next(st, op))
  {
  }

  lemma {:induction false} RunSafe(ops: seq<Op>)
    ensures Safe(RunFlags(ops))
  {
    if ops != [] {
      RunSafe(ops[..|ops| - 1]);
      StepSafe(RunFlags(ops[..|ops| - 1]), ops[|ops| - 1]);
    }
  }

  /** One more accepted request. */
  lemma Extend(ops: seq<Op>, f: Flag, on: bool) returns (more: seq<Op>)
    ensures Accepts(RunFlags(ops), f, on) ==> RunFlags(more) == Updated(RunFlags(ops), f, on)
    ensures !Accepts(RunFlags(ops), f, on) ==> RunFlags(more) == RunFlags(ops)
  {
    var op := if f == HOST then MarkHost(on) else if f == TPG then SetTpg(on, false) else Put(f, if on then 1 else 0);
    more := ops + [op];
    assert more[..|more| - 1] == ops;
  }

  /** Nothing stronger holds of the reachable states: every safe state is reached. */
  lemma SafeIsReached(st: set<Flag>) returns (ops: seq<Op>)
    requires Safe(st)
    ensures RunFlags(ops) == st
  {
    ops := [];
    ops := Extend(ops, POWER, true);
    ops := Extend(ops, ENGINE, true);
    assert RunFlags(ops) == {POWER, ENGINE};
    if HOST in st {
      ops := Extend(ops, HOST, true);
    }
    if TPG in st {
      ops := Extend(ops, TPG, true);
    }
    assert RunFlags(ops) == {POWER, ENGINE} + st * {HOST, TPG};
    if CMD in st {
      ops := Extend(ops, CMD, true);
    }
    if VID in st {
      ops := Extend(ops, VID, true);
    }
    assert RunFlags(ops) == {POWER, ENGINE} + st * {HOST, TPG, CMD, VID};
    assert RunFlags(ops) == st + {POWER, ENGINE} by {
      forall f
        ensures f in RunFlags(ops) <==> f in st + {POWER, ENGINE}
      {
        assert f.POWER? || f.ENGINE? || f.VID? || f.CMD? || f.HOST? || f.TPG?;
      }
    }
    if ENGINE !in st {
      ops := Extend(ops, ENGINE, false);
    }
    assert RunFlags(ops) == st + {POWER};
    if POWER !in st {
      ops := Extend(ops, POWER, false);
    }
  }

  /** A state is reached by some run exactly when it is safe. */
  lemma ReachedIffSafe(st: set<Flag>)
    ensures (exists ops :: RunFlags(ops) == st) <==> Safe(st)
  {
    if Safe(st) {
      var ops := SafeIsReached(st);
    }
    forall ops | RunFlags(ops) == st
      ensures Safe(st)
    {
      RunSafe(ops);
    }
  }

  /** The comment of dsi_ctrl_set_power_state promises that power changes only with all
      engines off.  A change is accepted with an engine on exactly when the controller engine
      is on and the video engine is off. */
  lemma PowerPromise(st: set<Flag>, on: bool)
    requires Safe(st) && (POWER in st) != on
    ensures Accepts(st, POWER, on) && !(st !! {ENGINE, VID, CMD}) <==> ENGINE in st && VID !in st
  {
    assert st !! {ENGINE, VID, CMD} <==> ENGINE !in st && VID !in st && CMD !in st;
  }

  lemma PowerOffWithEnginesOn() returns (ops: seq<Op>)
    ensures RunFlags(ops) == {POWER, ENGINE, CMD} && Accepts(RunFlags(ops), POWER, false)
  {
    ops := SafeIsReached({POWER, ENGINE, CMD});
  }

  lemma PowerOnWithEnginesOn() returns (ops: seq<Op>)
    ensures RunFlags(ops) == {ENGINE, CMD} && Accepts(RunFlags(ops), POWER, true)
  {
    ops := SafeIsReached({ENGINE, CMD});
  }

  // ---------------------------------------------------------------------
  // Registers
  // ---------------------------------------------------------------------

  /** The registers at 0x4, 0x10C, 0x110, 0x118, 0x11C and 0x15C, and those at other offsets. */
  datatype Reg =
    | DSI_CTRL
    | DSI_ERR_INT_MASK0
    | DSI_INT_CTRL
    | DSI_SOFT_RESET
    | DSI_CLK_CTRL
    | TEST_PATTERN_GEN_CTRL
    | OTHER(offset: nat)

  predicate Known(regs: map<Reg, Word>) {
    DSI_CTRL in regs && DSI_ERR_INT_MASK0 in regs && DSI_INT_CTRL in regs && DSI_SOFT_RESET in regs &&
    DSI_CLK_CTRL in regs && TEST_PATTERN_GEN_CTRL in regs
  }

  const FORCE_ON: Word := {0, 1, 2, 3, 4, 5, 8, 9, 11, 21}
  const CLOCKS_ON: Word := {0, 1, 2, 3, 4, 5, 9} // 0x23F
  const LOW_HALF: Word := {0, 1, 2, 3, 4, 5, 6, 7, 8, 9, 10, 11, 12, 13, 14, 15} // 0xFFFF

  // Registers of the test pattern.
  const VIDEO_INIT_VAL: nat := 0x164
  const CMD_MDP_INIT_VAL0: nat := 0x16C
  const TPG_MAIN_CONTROL: nat := 0x19C
  const TPG_VIDEO_CONFIG: nat := 0x1A4

  // Bits of DSI_INT_CTRL and of DSI_ERR_INT_MASK0.
  const ERROR_MASK: nat := 25
  const UNREPORTED: Word := {0, 1, 2, 3, 4, 8, 9, 11, 12, 13, 20, 21, 22, 23, 24, 25, 28}
  const HS_TX_TIMEOUT: nat := 6

  /** What initialising the host writes: the checks and data lanes that go into DSI_CTRL,
      whether a high-speed timeout is reported, and the values of the other registers. */
  datatype HostConfig = HostConfig(crc: bool, ecc: bool, lanes: set<nat>, hsTimeout: bool, writes: map<nat, Word>) {
    /** The clock lane is always among them. */
    function CtrlBits(): (w: Word)
      ensures forall b :: b in w <==> Sets(b)
    {
      {8} + (if crc then {24} else {}) + (if ecc then {20} else {}) + set l | l in lanes && l < 4 :: l + 4
    }

    /** Bit b of DSI_CTRL is the clock lane, a data lane in use, or a check that is wanted. */
    predicate Sets(b: nat) {
      b == 8 || (4 <= b < 8 && b - 4 in lanes) || (b == 20 && ecc) || (b == 24 && crc)
    }

    /** What is left of 0x7FFF3BFF without the errors 0xFF00A0, or 0xFF00E0. */
    function ErrorMask(): Word {
      UNREPORTED + if hsTimeout then {} else {HS_TX_TIMEOUT}
    }
  }

  function Written(regs: map<Reg, Word>, writes: map<nat, Word>): map<Reg, Word> {
    regs + map o | o in writes :: OTHER(o) := writes[o]
  }

  /** The registers once the host is set up. */
  function SetUp(regs: map<Reg, Word>, cfg: HostConfig): map<Reg, Word>
    requires Known(regs)
  {
    Written(regs, cfg.writes)[DSI_CLK_CTRL := CLOCKS_ON][DSI_CTRL := regs[DSI_CTRL] + cfg.CtrlBits()]
  }

  /** The registers once the interrupts of a fresh host are set: no status interrupt, and
      some errors. */
  function Watched(regs: map<Reg, Word>, cfg: HostConfig): map<Reg, Word> {
    regs[DSI_INT_CTRL := {ERROR_MASK}][DSI_ERR_INT_MASK0 := cfg.ErrorMask()]
  }

  /** The registers once the test pattern is on or off. */
  function Patterned(regs: map<Reg, Word>, on: bool, cmd: bool): map<Reg, Word>
    requires Known(regs)
  {
    if !on then regs[TEST_PATTERN_GEN_CTRL := WithBit(regs[TEST_PATTERN_GEN_CTRL], 0, false)]
    else if cmd then regs[OTHER(CMD_MDP_INIT_VAL0) := LOW_HALF][TEST_PATTERN_GEN_CTRL := {0, 8}]
    else regs[OTHER(VIDEO_INIT_VAL) := LOW_HALF][OTHER(TPG_MAIN_CONTROL) := {8}][OTHER(TPG_VIDEO_CONFIG) := {0, 2}]
             [TEST_PATTERN_GEN_CTRL := {0, 4}]
  }

  /** What an accepted request does to the registers, apart from the engine bits. */
  function Configured(regs: map<Reg, Word>, op: Op): (r: map<Reg, Word>)
    requires Known(regs)
    ensures Known(r)
  {
    match op
    case InitHost(splash, cfg) => Watched(if splash then regs else SetUp(regs, cfg), cfg)
    case SetTpg(on, cmd) => Patterned(regs, on, cmd)
    case _ => regs
  }

  /** What becomes of each register. */
  lemma ConfiguredCtrl(regs: map<Reg, Word>, op: Op)
    requires Known(regs)
    ensures var sets := op.InitHost? && !op.splash;
            var r := Configured(regs, op);
            r[DSI_CTRL] == regs[DSI_CTRL] + (if sets then op.cfg.CtrlBits() else {}) &&
            r[DSI_CLK_CTRL] == if sets then CLOCKS_ON else regs[DSI_CLK_CTRL]
  {
    hide HostConfig.CtrlBits, HostConfig.ErrorMask;
  }

  lemma ConfiguredInt(regs: map<Reg, Word>, op: Op)
    requires Known(regs)
    ensures var r := Configured(regs, op);
            if op.InitHost? then r[DSI_INT_CTRL] == {ERROR_MASK} && r[DSI_ERR_INT_MASK0] == op.cfg.ErrorMask()
            else r[DSI_INT_CTRL] == regs[DSI_INT_CTRL] && r[DSI_ERR_INT_MASK0] == regs[DSI_ERR_INT_MASK0]
  {
    hide HostConfig.CtrlBits, HostConfig.ErrorMask;
  }

  lemma ConfiguredTpg(regs: map<Reg, Word>, op: Op)
    requires Known(regs)
    ensures 0 in Configured(regs, op)[TEST_PATTERN_GEN_CTRL] <==>
            if op.SetTpg? then op.on else 0 in regs[TEST_PATTERN_GEN_CTRL]
  {
    hide HostConfig.CtrlBits, HostConfig.ErrorMask;
  }

  lemma ConfiguredOther(regs: map<Reg, Word>, op: Op, o: nat)
    requires Known(regs) && OTHER(o) in regs && !Touches(op, o)
    ensures OTHER(o) in Configured(regs, op) && Configured(regs, op)[OTHER(o)] == regs[OTHER(o)]
  {
    hide HostConfig.CtrlBits, HostConfig.ErrorMask;
  }

  /** The registers after a run, apart from the engine bits. */
  function Base(ops: seq<Op>, r0: map<Reg, Word>): (r: map<Reg, Word>)
    requires Known(r0)
    ensures Known(r)
  {
    if ops == [] then r0
    else
      var past, op := ops[..|ops| - 1], ops[|ops| - 1];
      if Allows(RunFlags(past), op) then Configured(Base(past, r0), op) else Base(past, r0)
  }

  /** The k-th request sets up the host. */
  predicate SetsUp(ops: seq<Op>, k: nat)
    requires k < |ops|
  {
    ops[k].InitHost? && !ops[k].splash && Allows(RunFlags(ops[..k]), ops[k])
  }

  /** Some request of the run sets up the host with bit b of DSI_CTRL. */
  ghost predicate Adds(ops: seq<Op>, b: nat) {
    exists k :: 0 <= k < |ops| && SetsUp(ops, k) && ops[k].cfg.Sets(b)
  }

  lemma AddsMore(ops: seq<Op>, b: nat)
    requires ops != []
    ensures var n := |ops| - 1;
            Adds(ops, b) <==> Adds(ops[..n], b) || (SetsUp(ops, n) && ops[n].cfg.Sets(b))
  {
    var past := ops[..|ops| - 1];
    assert forall k :: 0 <= k < |past| ==> past[..k] == ops[..k] && past[k] == ops[k];
    forall k: nat | k < |past|
      ensures SetsUp(past, k) <==> SetsUp(ops, k)
    {
    }
    if Adds(past, b) {
      var k :| 0 <= k < |past| && SetsUp(past, k) && past[k].cfg.Sets(b);
      assert SetsUp(ops, k) && ops[k].cfg.Sets(b);
    }
    if Adds(ops, b) {
      var k :| 0 <= k < |ops| && SetsUp(ops, k) && ops[k].cfg.Sets(b);
      assert k < |past| ==> SetsUp(past, k) && past[k].cfg.Sets(b);
    }
  }

  /** The bits of DSI_CTRL: those at the start and those of the host configurations. */
  lemma {:induction false} BaseCtrl(ops: seq<Op>, r0: map<Reg, Word>, b: nat)
    requires Known(r0)
    ensures b in Base(ops, r0)[DSI_CTRL] <==> b in r0[DSI_CTRL] || Adds(ops, b)
  {
    assert ops == [] ==> !Adds(ops, b);
    hide Adds, Allows, RunFlags, HostConfig.CtrlBits, Configured;
    if ops != [] {
      var past, op := ops[..|ops| - 1], ops[|ops| - 1];
      BaseCtrl(past, r0, b);
      ConfiguredCtrl(Base(past, r0), op);
      AddsMore(ops, b);
    }
  }

  /** The clocks of the controller are as at the start until the host is set up; the bit
      that is in every host configuration tells. */
  lemma {:induction false} BaseClk(ops: seq<Op>, r0: map<Reg, Word>)
    requires Known(r0)
    ensures Base(ops, r0)[DSI_CLK_CTRL] == if Adds(ops, 8) then CLOCKS_ON else r0[DSI_CLK_CTRL]
  {
    assert ops == [] ==> !Adds(ops, 8);
    hide Adds, Allows, RunFlags, HostConfig.CtrlBits, Configured;
    if ops != [] {
      var past, op := ops[..|ops| - 1], ops[|ops| - 1];
      BaseClk(past, r0);
      ConfiguredCtrl(Base(past, r0), op);
      AddsMore(ops, 8);
    }
  }

  /** The k-th request initialises the host, under continuous splash or not. */
  predicate Inits(ops: seq<Op>, k: nat)
    requires k < |ops|
  {
    ops[k].InitHost? && Allows(RunFlags(ops[..k]), ops[k])
  }

  /** It is the last to do so. */
  ghost predicate LastInit(ops: seq<Op>, k: nat) {
    k < |ops| && Inits(ops, k) && forall j: nat :: k < j < |ops| ==> !Inits(ops, j)
  }

  lemma InitsMore(ops: seq<Op>, k: nat)
    requires ops != []
    ensures var n := |ops| - 1;
            LastInit(ops, k) <==> if Inits(ops, n) then k == n else LastInit(ops[..n], k)
  {
    var n := |ops| - 1;
    var past := ops[..n];
    assert forall j :: 0 <= j < n ==> past[..j] == ops[..j] && past[j] == ops[j];
    assert forall j: nat :: j < n ==> (Inits(past, j) <==> Inits(ops, j));
  }

  /** The interrupt registers are as at the start until the host is initialised.  Then no
      status interrupt is enabled, and the errors reported are those of the last host
      configuration. */
  lemma {:induction false} BaseInt(ops: seq<Op>, r0: map<Reg, Word>, k: nat)
    requires Known(r0)
    ensures (forall j: nat :: j < |ops| ==> !Inits(ops, j)) ==>
              Base(ops, r0)[DSI_INT_CTRL] == r0[DSI_INT_CTRL] &&
              Base(ops, r0)[DSI_ERR_INT_MASK0] == r0[DSI_ERR_INT_MASK0]
    ensures LastInit(ops, k) ==>
              Base(ops, r0)[DSI_INT_CTRL] == {ERROR_MASK} &&
              Base(ops, r0)[DSI_ERR_INT_MASK0] == ops[k].cfg.ErrorMask()
  {
    hide HostConfig.CtrlBits, HostConfig.ErrorMask, Allows, RunFlags, Configured;
    if ops != [] {
      var n := |ops| - 1;
      var past := ops[..n];
      assert forall j :: 0 <= j < n ==> past[..j] == ops[..j] && past[j] == ops[j];
      assert forall j: nat :: j < n ==> (Inits(past, j) <==> Inits(ops, j));
      BaseInt(past, r0, k);
      ConfiguredInt(Base(past, r0), ops[n]);
      InitsMore(ops, k);
    }
  }

  /** The enable bit of the test pattern generator mirrors the state. */
  lemma {:induction false} BaseTpg(ops: seq<Op>, r0: map<Reg, Word>)
    requires Known(r0) && 0 !in r0[TEST_PATTERN_GEN_CTRL]
    ensures 0 in Base(ops, r0)[TEST_PATTERN_GEN_CTRL] <==> TPG in RunFlags(ops)
  {
    hide Configured;
    if ops != [] {
      var past, op := ops[..|ops| - 1], ops[|ops| - 1];
      BaseTpg(past, r0);
      ConfiguredTpg(Base(past, r0), op);
    }
  }

  predicate Touches(op: Op, o: nat) {
    (op.InitHost? && !op.splash && o in op.cfg.writes) ||
    (op.SetTpg? && o in {VIDEO_INIT_VAL, CMD_MDP_INIT_VAL0, TPG_MAIN_CONTROL, TPG_VIDEO_CONFIG})
  }

  /** A register that no request configures stays as it is. */
  lemma {:induction false} BaseOther(ops: seq<Op>, r0: map<Reg, Word>, o: nat)
    requires Known(r0) && OTHER(o) in r0 && forall k :: 0 <= k < |ops| ==> !Touches(ops[k], o)
    ensures OTHER(o) in Base(ops, r0) && Base(ops, r0)[OTHER(o)] == r0[OTHER(o)]
  {
    hide Allows, RunFlags, Configured, Touches;
    if ops != [] {
      var past, op := ops[..|ops| - 1], ops[|ops| - 1];
      BaseOther(past, r0, o);
      ConfiguredOther(Base(past, r0), op, o);
    }
  }

  // Bits of DSI_CTRL.
  const DSI_EN: nat := 0
  const VIDEO_MODE_EN: nat := 1
  const CMD_MODE_EN: nat := 2

  function WithBit(r: Word, b: nat, on: bool): Word {
    if on then r + {b} else r - {b}
  }

  /** The low bits of r are the engine states of st, the others those of r0. */
  predicate Mirrors(r: Word, st: set<Flag>, r0: Word) {
    (0 in r <==> ENGINE in st) && (1 in r <==> VID in st) && (2 in r <==> CMD in st) &&
    r - {0, 1, 2} == r0 - {0, 1, 2}
  }

  /** The bit of DSI_CTRL that mirrors an engine. */
  function BitOf(f: Flag): nat {
    if f == ENGINE then DSI_EN else if f == VID then VIDEO_MODE_EN else CMD_MODE_EN
  }

  lemma BitMirrors(r: Word, r0: Word, st: set<Flag>, f: Flag, on: bool)
    requires Mirrors(r, st, r0) && (f == ENGINE || f == VID || f == CMD)
    ensures Mirrors(WithBit(r, BitOf(f), on), Updated(st, f, on), r0)
  {
    var w := WithBit(r, BitOf(f), on);
    forall b | b !in {0, 1, 2}
      ensures b in w <==> b in r0
    {
      assert b in r - {0, 1, 2} <==> b in r0 - {0, 1, 2};
    }
    assert w - {0, 1, 2} == r0 - {0, 1, 2};
  }

  /** Setting other bits in both keeps them in agreement. */
  lemma MoreBits(r: Word, st: set<Flag>, r0: Word, bits: Word)
    requires Mirrors(r, st, r0) && bits !! {0, 1, 2}
    ensures Mirrors(r + bits, st, r0 + bits)
  {
    var low: Word := {0, 1, 2};
    assert (r + bits) - low == (r - low) + bits && (r0 + bits) - low == (r0 - low) + bits;
  }

  lemma NoBits(r: Word)
    requires r * {0, 1, 2} == {}
    ensures Mirrors(r, {}, r)
  {
    assert 0 !in r * {0, 1, 2} && 1 !in r * {0, 1, 2} && 2 !in r * {0, 1, 2};
  }

  /** A write that asserts the reset. */
  predicate Resets(r: Reg, w: Word) {
    r == DSI_SOFT_RESET && 0 in w
  }

  /** All engines are disabled and the clocks are forced on. */
  predicate Quiet(regs: map<Reg, Word>) {
    DSI_CTRL in regs && DSI_CLK_CTRL in regs && regs[DSI_CTRL] * {0, 1, 2} == {} &&
    {0, 1, 2, 3, 4, 5, 8, 9, 11, 21} <= regs[DSI_CLK_CTRL]
  }

  /** The writes of a reset, for the values of DSI_CTRL and DSI_CLK_CTRL before it. */
  function ResetWrites(ctrl: Word, clk: Word): seq<(Reg, Word)> {
    [(DSI_CTRL, ctrl - {0, 1, 2}), (DSI_CLK_CTRL, clk + {0, 1, 2, 3, 4, 5, 8, 9, 11, 21}),
     (DSI_SOFT_RESET, {0}), (DSI_SOFT_RESET, {}), (DSI_CLK_CTRL, clk), (DSI_CTRL, ctrl)]
  }

  class Hw {
    var regs: map<Reg, Word>
    // Each reset so far was triggered with all engines disabled and the clocks forced on.
    ghost var orderly: bool
    ghost var log: seq<(Reg, Word)> // the writes so far

    ghost predicate Valid()
      reads this
    {
      Known(regs)
    }

    constructor (regs: map<Reg, Word>)
      ensures this.regs == regs && orderly && log == []
    {
      this.regs, orderly, log := regs, true, [];
    }

    method Write(r: Reg, w: Word)
      modifies this
      ensures regs == old(regs)[r := w] && log == old(log) + [(r, w)]
      ensures orderly == (old(orderly) && (Resets(r, w) ==> Quiet(regs)))
    {
      regs := regs[r := w];
      log := log + [(r, w)];
      orderly := orderly && (Resets(r, w) ==> Quiet(regs));
    }

    /** video_engine_en. */
    method VideoEngineEn(on: bool)
      requires Valid()
      modifies this
      ensures Valid() && orderly == old(orderly)
      ensures regs == old(regs)[DSI_CTRL := WithBit(old(regs)[DSI_CTRL], BitOf(VID), on)]
      ensures var ctrl := old(regs)[DSI_CTRL]; log == old(log) + [(DSI_CTRL, if on then ctrl + {1} else ctrl - {1})]
    {
      Write(DSI_CTRL, WithBit(regs[DSI_CTRL], BitOf(VID), on));
    }

    /** cmd_engine_en. */
    method CmdEngineEn(on: bool)
      requires Valid()
      modifies this
      ensures Valid() && orderly == old(orderly)
      ensures regs == old(regs)[DSI_CTRL := WithBit(old(regs)[DSI_CTRL], BitOf(CMD), on)]
      ensures var ctrl := old(regs)[DSI_CTRL]; log == old(log) + [(DSI_CTRL, if on then ctrl + {2} else ctrl - {2})]
    {
      Write(DSI_CTRL, WithBit(regs[DSI_CTRL], BitOf(CMD), on));
    }

    /** ctrl_en: under forced clocks, which are restored. */
    method CtrlEn(on: bool)
      requires Valid()
      modifies this
      ensures Valid() && orderly == old(orderly)
      ensures regs == old(regs)[DSI_CTRL := WithBit(old(regs)[DSI_CTRL], BitOf(ENGINE), on)]
      ensures var ctrl, clk := old(regs)[DSI_CTRL], old(regs)[DSI_CLK_CTRL];
              log == old(log) + [(DSI_CLK_CTRL, clk + {0, 1, 2, 3, 4, 5, 8, 9, 11, 21}),
                                 (DSI_CTRL, if on then ctrl + {0} else ctrl - {0}), (DSI_CLK_CTRL, clk)]
    {
      var clkCtrl := regs[DSI_CLK_CTRL];
      Write(DSI_CLK_CTRL, clkCtrl + FORCE_ON);
      Write(DSI_CTRL, WithBit(regs[DSI_CTRL], BitOf(ENGINE), on));
      Write(DSI_CLK_CTRL, clkCtrl);
    }

    method WriteOthers(writes: map<nat, Word>)
      modifies this`regs
      ensures regs == Written(old(regs), writes)
    {
      regs := Written(regs, writes);
    }

    /** setup_lane_map, host_setup and the set-up of the engine; the registers without a
        bearing on the state together. */
    method HostSetup(cfg: HostConfig)
      requires Valid()
      modifies this
      ensures Valid() && orderly == old(orderly) && regs == SetUp(old(regs), cfg)
      ensures forall b :: b in regs[DSI_CTRL] <==>
                b in old(regs)[DSI_CTRL] || b == 8 || (4 <= b < 8 && b - 4 in cfg.lanes) || (b == 20 && cfg.ecc) ||
                (b == 24 && cfg.crc)
      ensures regs[DSI_CLK_CTRL] == {0, 1, 2, 3, 4, 5, 9}
    {
      WriteOthers(cfg.writes);
      Write(DSI_CLK_CTRL, CLOCKS_ON);
      Write(DSI_CTRL, regs[DSI_CTRL] + cfg.CtrlBits());
    }

    /** enable_status_interrupts(0), which spares the error mask bit, and
        enable_error_interrupts, which sets it. */
    method WatchErrors(cfg: HostConfig)
      requires Valid()
      modifies this
      ensures Valid() && orderly == old(orderly) && regs == Watched(old(regs), cfg)
      ensures regs == old(regs)[DSI_INT_CTRL := {25}][DSI_ERR_INT_MASK0 :=
                {0, 1, 2, 3, 4, 8, 9, 11, 12, 13, 20, 21, 22, 23, 24, 25, 28} + if cfg.hsTimeout then {} else {6}]
    {
      Write(DSI_INT_CTRL, regs[DSI_INT_CTRL] * {ERROR_MASK});
      Write(DSI_INT_CTRL, regs[DSI_INT_CTRL] + {ERROR_MASK});
      Write(DSI_ERR_INT_MASK0, cfg.ErrorMask());
      assert old(regs)[DSI_INT_CTRL] * {ERROR_MASK} + {ERROR_MASK} == {ERROR_MASK};
    }

    /** video_test_pattern_setup and cmd_test_pattern_setup, for an incrementing pattern. */
    method TestPatternSetup(cmd: bool)
      requires Valid()
      modifies this
      ensures Valid() && orderly == old(orderly)
      ensures regs ==
              if cmd then old(regs)[OTHER(CMD_MDP_INIT_VAL0) := LOW_HALF][TEST_PATTERN_GEN_CTRL := {8}]
              else old(regs)[OTHER(VIDEO_INIT_VAL) := LOW_HALF][OTHER(TPG_MAIN_CONTROL) := {8}]
                            [OTHER(TPG_VIDEO_CONFIG) := {0, 2}][TEST_PATTERN_GEN_CTRL := {4}]
    {
      if cmd {
        Write(OTHER(CMD_MDP_INIT_VAL0), LOW_HALF);
        Write(TEST_PATTERN_GEN_CTRL, {8});
      } else {
        Write(OTHER(VIDEO_INIT_VAL), LOW_HALF);
        Write(OTHER(TPG_MAIN_CONTROL), {8});
        Write(OTHER(TPG_VIDEO_CONFIG), {0, 2});
        Write(TEST_PATTERN_GEN_CTRL, {4});
      }
    }

    /** The set-up of the pattern, and test_pattern_enable. */
    method TestPattern(on: bool, cmd: bool)
      requires Valid()
      modifies this
      ensures Valid() && orderly == old(orderly) && regs == Patterned(old(regs), on, cmd)
      ensures !on ==> regs == old(regs)[TEST_PATTERN_GEN_CTRL := old(regs)[TEST_PATTERN_GEN_CTRL] - {0}]
      ensures on ==> regs[TEST_PATTERN_GEN_CTRL] == if cmd then {0, 8} else {0, 4}
      ensures on ==>
                var init := OTHER(if cmd then 0x16C else 0x164);
                init in regs && regs[init] == {0, 1, 2, 3, 4, 5, 6, 7, 8, 9, 10, 11, 12, 13, 14, 15}
      ensures on && !cmd ==>
                OTHER(0x19C) in regs && regs[OTHER(0x19C)] == {8} &&
                OTHER(0x1A4) in regs && regs[OTHER(0x1A4)] == {0, 2}
    {
      if on {
        TestPatternSetup(cmd);
      }
      Write(TEST_PATTERN_GEN_CTRL, WithBit(regs[TEST_PATTERN_GEN_CTRL], 0, on));
      assert {8} + {0} == {0, 8} && {4} + {0} == {0, 4};
    }

    /** soft_reset: disturbs no register but its own, and resets only a quiet controller. */
    method SoftReset()
      requires Valid()
      modifies this
      ensures Valid() && orderly == old(orderly)
      ensures regs == old(regs)[DSI_SOFT_RESET := {}]
      ensures log == old(log) + ResetWrites(old(regs)[DSI_CTRL], old(regs)[DSI_CLK_CTRL])
    {
      var ctrl := regs[DSI_CTRL];
      Write(DSI_CTRL, ctrl - {0, 1, 2});
      var reg := regs[DSI_CLK_CTRL];
      Write(DSI_CLK_CTRL, reg + FORCE_ON);
      Write(DSI_SOFT_RESET, {0});
      Write(DSI_SOFT_RESET, {});
      Write(DSI_CLK_CTRL, reg);
      Write(DSI_CTRL, ctrl);
    }
  }

  // ---------------------------------------------------------------------
  // The controller
  // ---------------------------------------------------------------------

  /** The references a supply should have. */
  function Due(count: nat, needed: bool): nat {
    if count > 0 && needed then 1 else 0
  }

  /** The registers that engine changes and resets leave alone. */
  function Others(regs: map<Reg, Word>): map<Reg, Word> {
    regs - {DSI_CTRL, DSI_SOFT_RESET}
  }

  lemma SetUpOthers(a: map<Reg, Word>, b: map<Reg, Word>, cfg: HostConfig)
    requires Known(a) && Known(b) && Others(a) == Others(b)
    ensures Others(SetUp(a, cfg)) == Others(SetUp(b, cfg))
  {
    hide HostConfig.CtrlBits;
    OthersAgree(a, b);
    OthersSame(SetUp(a, cfg), SetUp(b, cfg));
  }

  lemma WatchedOthers(a: map<Reg, Word>, b: map<Reg, Word>, cfg: HostConfig)
    requires Others(a) == Others(b)
    ensures Others(Watched(a, cfg)) == Others(Watched(b, cfg))
  {
    hide HostConfig.ErrorMask;
    OthersAgree(a, b);
    OthersSame(Watched(a, cfg), Watched(b, cfg));
  }

  lemma PatternedOthers(a: map<Reg, Word>, b: map<Reg, Word>, on: bool, cmd: bool)
    requires Known(a) && Known(b) && Others(a) == Others(b)
    ensures Others(Patterned(a, on, cmd)) == Others(Patterned(b, on, cmd))
  {
    OthersAgree(a, b);
    OthersSame(Patterned(a, on, cmd), Patterned(b, on, cmd));
  }

  ghost predicate Agree(a: map<Reg, Word>, b: map<Reg, Word>) {
    forall r :: r != DSI_CTRL && r != DSI_SOFT_RESET ==> (r in a <==> r in b) && (r in a ==> a[r] == b[r])
  }

  lemma OthersAgree(a: map<Reg, Word>, b: map<Reg, Word>)
    requires Others(a) == Others(b)
    ensures Agree(a, b)
  {
    forall r | r != DSI_CTRL && r != DSI_SOFT_RESET
      ensures (r in a <==> r in b) && (r in a ==> a[r] == b[r])
    {
      assert (r in a <==> r in Others(a)) && (r in b <==> r in Others(b));
      if r in a {
        assert a[r] == Others(a)[r] == Others(b)[r] == b[r];
      }
    }
  }

  lemma OthersSame(a: map<Reg, Word>, b: map<Reg, Word>)
    requires Agree(a, b)
    ensures Others(a) == Others(b)
  {
  }

  class Ctrl {
    const host: Regulators
    const digital: Regulators
    const hw: Hw
    var on: set<Flag>

    ghost predicate Valid()
      reads this, host, digital, hw
    {
      host != digital && host.Valid() && digital.Valid() && hw.Valid()
    }

    /** The host supply is referenced once while power is on or the host is initialised,
        the digital supply while power is on; and what is referenced is on. */
    ghost predicate Supplied(st: set<Flag>)
      reads host, digital
    {
      host.Agrees() && digital.Agrees() &&
      host.refcount == Due(host.count, POWER in st || HOST in st) && digital.refcount == Due(digital.count, POWER in st)
    }

    /** The engine bits follow the state; everything else is as in r0; resets were orderly. */
    ghost predicate Mirrored(r0: map<Reg, Word>)
      reads this, hw
    {
      hw.Valid() && hw.orderly && Known(r0) && Mirrors(hw.regs[DSI_CTRL], on, r0[DSI_CTRL]) &&
      Others(hw.regs) == Others(r0)
    }

    ghost predicate Inv(r0: map<Reg, Word>)
      reads this, host, digital, hw
    {
      Valid() && Safe(on) && Supplied(on) && Mirrored(r0)
    }

    predicate NoFaults() { host.NoFaults() && digital.NoFaults() }

    /** A controller with everything off. */
    constructor (host: Regulators, digital: Regulators, hw: Hw)
      requires host != digital && host.Agrees() && digital.Agrees() && host.refcount == digital.refcount == 0
      requires hw.Valid() && hw.orderly && hw.regs[DSI_CTRL] * {0, 1, 2} == {}
      ensures this.host == host && this.digital == digital && this.hw == hw && on == {} && Inv(hw.regs)
    {
      this.host, this.digital, this.hw, on := host, digital, hw, {};
      NoBits(hw.regs[DSI_CTRL]);
    }

    /** The supplies that power needs besides can be had. */
    predicate CanPower()
      reads this, host, digital
    {
      (HOST in on || host.CanEnable()) && digital.CanEnable()
    }

    /** dsi_ctrl_enable_supplies(true).  Afterwards the supplies are right exactly when all of
        them could be had: a failure leaves a reference to a supply that is off. */
    method EnableSupplies() returns (rc: int)
      requires host != digital && host.Valid() && digital.Valid()
      modifies host, digital
      ensures host.Valid() && digital.Valid() && (NoFaults() ==> rc == 0)
      ensures rc == 0 <==> old(CanPower())
      ensures old(Supplied(on)) && POWER !in on ==> (Supplied(on + {POWER}) <==> old(CanPower()))
      ensures old(Supplied(on)) && rc != 0 ==> !host.Agrees() || !digital.Agrees()
      ensures rc != 0 && HOST !in on && !old(host.CanEnable()) ==>
                host.refcount == old(host.refcount) + 1 && digital.refcount == old(digital.refcount)
      ensures rc != 0 && (HOST in on || old(host.CanEnable())) ==>
                digital.refcount == old(digital.refcount) + 1 &&
                host.refcount ==
                  if HOST !in on || host.count == 0 || old(host.refcount) == 0 then old(host.refcount)
                  else old(host.refcount) - 1
    {
      assert host as object != this && digital as object != this;
      rc := 0;
      if HOST !in on {
        rc := host.Enable();
        if rc != 0 {
          return;
        }
      }
      rc := digital.Enable();
      if rc != 0 {
        var _ := host.Disable();
      }
    }

    /** dsi_ctrl_enable_supplies(false). */
    method DisableSupplies() returns (rc: int)
      requires host != digital && host.Valid() && digital.Valid()
      modifies host, digital
      ensures host.Valid() && digital.Valid() && rc == 0
      ensures old(Supplied(on)) && POWER in on ==> Supplied(on - {POWER})
    {
      assert host as object != this && digital as object != this;
      rc := digital.Disable();
      if rc != 0 {
        return;
      }
      if HOST !in on {
        rc := host.Disable();
      }
    }

    /** dsi_ctrl_set_power_state.  The invariant is lost exactly when power is to go on, may
        go on, and a supply cannot be had. */
    method SetPowerState(state: nat, ghost r0: map<Reg, Word>) returns (rc: int)
      requires Inv(r0)
      modifies this, host, digital
      ensures Valid() && Safe(on) && Mirrored(r0)
      ensures on == if rc == 0 then Next(old(on), Put(POWER, state)) else old(on)
      ensures !Allows(old(on), Put(POWER, state)) ==> rc == -22
      ensures NoFaults() ==> rc == Answer(old(on), Put(POWER, state))
      ensures Allows(old(on), Put(POWER, state)) ==> (rc == 0 <==> state == 0 || old(CanPower()))
      ensures rc == 0 <==>
                (state == 0 && POWER in old(on) && VID !in old(on)) ||
                (state == 1 && POWER !in old(on) && old(CanPower()))
      ensures rc == 0 ==> on == if state == 1 then old(on) + {POWER} else old(on) - {POWER}
      ensures Inv(r0) <==> !Allows(old(on), Put(POWER, 1)) || state != 1 || old(CanPower())
    {
      if state >= 2 || !Accepts(on, POWER, state == 1) {
        return -22;
      }
      assert host as object != this && digital as object != this && hw as object != this;
      assert host as object != hw && digital as object != hw;
      if state == 1 {
        rc := EnableSupplies();
        if rc != 0 {
          return;
        }
      } else {
        rc := DisableSupplies();
        if rc != 0 {
          return;
        }
      }
      on := Updated(on, POWER, state == 1);
    }

    /** dsi_ctrl_set_host_engine_state. */
    method SetHostEngineState(state: nat, ghost r0: map<Reg, Word>) returns (rc: int)
      requires Inv(r0)
      modifies this, hw
      ensures Inv(r0) && on == Next(old(on), Put(ENGINE, state)) && rc == Answer(old(on), Put(ENGINE, state))
      ensures rc == 0 <==>
                state <= 1 && (ENGINE in old(on)) != (state == 1) && POWER in old(on) &&
                (state == 0 ==> VID !in old(on) && CMD !in old(on))
      ensures rc != 0 ==> rc == -22 && on == old(on) && hw.log == old(hw.log)
      ensures rc == 0 ==> on == if state == 1 then old(on) + {ENGINE} else old(on) - {ENGINE}
      ensures rc == 0 ==>
                var ctrl, clk := old(hw.regs)[DSI_CTRL], old(hw.regs)[DSI_CLK_CTRL];
                hw.log == old(hw.log) + [(DSI_CLK_CTRL, clk + {0, 1, 2, 3, 4, 5, 8, 9, 11, 21}),
                                         (DSI_CTRL, if state == 1 then ctrl + {0} else ctrl - {0}), (DSI_CLK_CTRL, clk)]
    {
      if state >= 2 || !Accepts(on, ENGINE, state == 1) {
        return -22;
      }
      assert host as object != hw && digital as object != hw && hw as object != this;
      assert host as object != this && digital as object != this;
      BitMirrors(hw.regs[DSI_CTRL], r0[DSI_CTRL], on, ENGINE, state == 1);
      hw.CtrlEn(state == 1);
      on := Updated(on, ENGINE, state == 1);
      rc := 0;
    }

    /** dsi_ctrl_set_cmd_engine_state. */
    method SetCmdEngineState(state: nat, ghost r0: map<Reg, Word>) returns (rc: int)
      requires Inv(r0)
      modifies this, hw
      ensures Inv(r0) && on == Next(old(on), Put(CMD, state)) && rc == Answer(old(on), Put(CMD, state))
      ensures rc == 0 <==> state <= 1 && (CMD in old(on)) != (state == 1) && POWER in old(on) && ENGINE in old(on)
      ensures rc != 0 ==> rc == -22 && on == old(on) && hw.log == old(hw.log)
      ensures rc == 0 ==> on == if state == 1 then old(on) + {CMD} else old(on) - {CMD}
      ensures rc == 0 ==>
                var ctrl := old(hw.regs)[DSI_CTRL];
                hw.log == old(hw.log) + [(DSI_CTRL, if state == 1 then ctrl + {2} else ctrl - {2})]
    {
      if state >= 2 || !Accepts(on, CMD, state == 1) {
        return -22;
      }
      assert host as object != hw && digital as object != hw && hw as object != this;
      assert host as object != this && digital as object != this;
      BitMirrors(hw.regs[DSI_CTRL], r0[DSI_CTRL], on, CMD, state == 1);
      hw.CmdEngineEn(state == 1);
      on := Updated(on, CMD, state == 1);
      rc := 0;
    }

    /** dsi_ctrl_set_vid_engine_state: switching off resets the controller. */
    method SetVidEngineState(state: nat, ghost r0: map<Reg, Word>) returns (rc: int)
      requires Inv(r0)
      modifies this, hw
      ensures Inv(r0) && on == Next(old(on), Put(VID, state)) && rc == Answer(old(on), Put(VID, state))
      ensures rc == 0 <==> state <= 1 && (VID in old(on)) != (state == 1) && POWER in old(on) && ENGINE in old(on)
      ensures rc != 0 ==> rc == -22 && on == old(on) && hw.log == old(hw.log)
      ensures rc == 0 ==> on == if state == 1 then old(on) + {VID} else old(on) - {VID}
      ensures rc == 0 && state == 1 ==> hw.log == old(hw.log) + [(DSI_CTRL, old(hw.regs)[DSI_CTRL] + {1})]
      ensures rc == 0 && state == 0 ==>
                var ctrl := old(hw.regs)[DSI_CTRL] - {1};
                hw.log == old(hw.log) + [(DSI_CTRL, ctrl)] + ResetWrites(ctrl, old(hw.regs)[DSI_CLK_CTRL])
    {
      if state >= 2 || !Accepts(on, VID, state == 1) {
        return -22;
      }
      assert host as object != hw && digital as object != hw && hw as object != this;
      assert host as object != this && digital as object != this;
      BitMirrors(hw.regs[DSI_CTRL], r0[DSI_CTRL], on, VID, state == 1);
      hw.VideoEngineEn(state == 1);
      if state != 1 {
        hw.SoftReset();
      }
      on := Updated(on, VID, state == 1);
      rc := 0;
    }

    /** dsi_ctrl_host_deinit, and dsi_ctrl_update_host_state of the host. */
    method MarkHostState(value: bool, ghost r0: map<Reg, Word>) returns (rc: int)
      requires Inv(r0)
      modifies this
      ensures Inv(r0) && on == Next(old(on), MarkHost(value)) && rc == Answer(old(on), MarkHost(value))
      ensures rc == 0 <==> (HOST in old(on)) != value && POWER in old(on)
      ensures on == if rc != 0 then old(on) else if value then old(on) + {HOST} else old(on) - {HOST}
    {
      if !Accepts(on, HOST, value) {
        return -22;
      }
      assert host as object != this && digital as object != this && hw as object != this;
      on := Updated(on, HOST, value);
      rc := 0;
    }

    /** dsi_ctrl_host_init.  Under continuous splash the boot loader has set up the host, but
        its interrupts are set in any case. */
    method HostInit(splash: bool, cfg: HostConfig, ghost r0: map<Reg, Word>, ghost r1: map<Reg, Word>) returns (rc: int)
      requires Inv(r0)
      requires r1 == if Allows(on, InitHost(splash, cfg)) then Configured(r0, InitHost(splash, cfg)) else r0
      modifies this, hw
      ensures Inv(r1) && on == Next(old(on), InitHost(splash, cfg)) && rc == Answer(old(on), InitHost(splash, cfg))
      ensures rc == 0 <==> HOST !in old(on) && POWER in old(on)
      ensures on == if rc != 0 then old(on) else old(on) + {HOST}
    {
      hide SetUp, Watched, HostConfig.CtrlBits, HostConfig.ErrorMask;
      if !Accepts(on, HOST, true) {
        return -22;
      }
      assert host as object != hw && digital as object != hw && hw as object != this;
      assert host as object != this && digital as object != this;
      ghost var base := r0;
      if !splash {
        SetUpMirrors(hw.regs, on, r0, cfg);
        hw.HostSetup(cfg);
        base := SetUp(r0, cfg);
      }
      WatchedMirrors(hw.regs, on, base, cfg);
      hw.WatchErrors(cfg);
      on := Updated(on, HOST, true);
      rc := 0;
    }

    /** dsi_ctrl_set_tpg_state. */
    method SetTpgState(value: bool, cmd: bool, ghost r0: map<Reg, Word>, ghost r1: map<Reg, Word>) returns (rc: int)
      requires Inv(r0)
      requires r1 == if Allows(on, SetTpg(value, cmd)) then Configured(r0, SetTpg(value, cmd)) else r0
      modifies this, hw
      ensures Inv(r1) && on == Next(old(on), SetTpg(value, cmd)) && rc == Answer(old(on), SetTpg(value, cmd))
      ensures rc == 0 <==> (TPG in old(on)) != value && POWER in old(on) && ENGINE in old(on)
      ensures on == if rc != 0 then old(on) else if value then old(on) + {TPG} else old(on) - {TPG}
    {
      hide Patterned, Watched, SetUp, HostConfig.CtrlBits, HostConfig.ErrorMask;
      if !Accepts(on, TPG, value) {
        return -22;
      }
      assert host as object != hw && digital as object != hw && hw as object != this;
      assert host as object != this && digital as object != this;
      PatternedMirrors(hw.regs, on, r0, value, cmd);
      hw.TestPattern(value, cmd);
      on := Updated(on, TPG, value);
      rc := 0;
    }

    /** dsi_ctrl_soft_reset. */
    method SoftReset(ghost r0: map<Reg, Word>)
      requires Inv(r0)
      modifies hw
      ensures Inv(r0) && on == old(on)
      ensures hw.log == old(hw.log) + ResetWrites(old(hw.regs)[DSI_CTRL], old(hw.regs)[DSI_CLK_CTRL])
    {
      assert host as object != hw && digital as object != hw && hw as object != this;
      hw.SoftReset();
    }

    /** One request. */
    method Step(op: Op, ghost r0: map<Reg, Word>, ghost r1: map<Reg, Word>, ghost st: set<Flag>)
      requires Inv(r0) && NoFaults() && on == st && r1 == if Allows(st, op) then Configured(r0, op) else r0
      modifies this, host, digital, hw
      ensures Inv(r1) && on == Next(st, op)
    {
      hide SetUp, Watched, Patterned, Accepts, Supplied, Mirrored;
      var rc;
      match op {
        case SoftReset => SoftReset(r0);
        case MarkHost(value) => rc := MarkHostState(value, r0);
        case InitHost(splash, cfg) => rc := HostInit(splash, cfg, r0, r1);
        case SetTpg(value, cmd) => rc := SetTpgState(value, cmd, r0, r1);
        case Put(f, value) =>
          match f {
            case POWER => rc := SetPowerState(value, r0);
            case ENGINE => rc := SetHostEngineState(value, r0);
            case CMD => rc := SetCmdEngineState(value, r0);
            case VID => rc := SetVidEngineState(value, r0);
          }
      }
    }

    /** A run of requests over regulators that never fail. */
    method Run(ops: seq<Op>, ghost r0: map<Reg, Word>)
      requires Inv(r0) && NoFaults() && on == {}
      modifies this, host, digital, hw
      ensures Inv(Base(ops, r0)) && on == RunFlags(ops)
      decreases |ops|
    {
      if ops != [] {
        var past := ops[..|ops| - 1];
        Run(past, r0);
        Step(ops[|ops| - 1], Base(past, r0), Base(ops, r0), RunFlags(past));
      }
    }

    /** What a run leaves in the registers: the low bits of DSI_CTRL are the engines, its
        other bits those at the start and those of the host configurations; the clocks are
        on once the host was set up; no status interrupt is enabled once it was initialised,
        and the errors reported are those of the last initialisation; the pattern generator is
        on with the test pattern; and what no request configures is as it was. */
    lemma Registers(ops: seq<Op>, r0: map<Reg, Word>, b: nat, k: nat, o: nat)
      requires Known(r0) && 0 !in r0[TEST_PATTERN_GEN_CTRL] && Inv(Base(ops, r0)) && on == RunFlags(ops)
      ensures 0 in hw.regs[DSI_CTRL] <==> ENGINE in on
      ensures 1 in hw.regs[DSI_CTRL] <==> VID in on
      ensures 2 in hw.regs[DSI_CTRL] <==> CMD in on
      ensures 4 <= b < 8 ==>
                (b in hw.regs[DSI_CTRL] <==>
                  b in r0[DSI_CTRL] || exists j :: 0 <= j < |ops| && SetsUp(ops, j) && b - 4 in ops[j].cfg.lanes)
      ensures 20 in hw.regs[DSI_CTRL] <==>
                20 in r0[DSI_CTRL] || exists j :: 0 <= j < |ops| && SetsUp(ops, j) && ops[j].cfg.ecc
      ensures 24 in hw.regs[DSI_CTRL] <==>
                24 in r0[DSI_CTRL] || exists j :: 0 <= j < |ops| && SetsUp(ops, j) && ops[j].cfg.crc
      ensures 8 in hw.regs[DSI_CTRL] <==> 8 in r0[DSI_CTRL] || exists j :: 0 <= j < |ops| && SetsUp(ops, j)
      ensures b > 2 && b !in {4, 5, 6, 7, 8, 20, 24} ==> (b in hw.regs[DSI_CTRL] <==> b in r0[DSI_CTRL])
      ensures hw.regs[DSI_CLK_CTRL] ==
                if exists j :: 0 <= j < |ops| && SetsUp(ops, j) then {0, 1, 2, 3, 4, 5, 9} else r0[DSI_CLK_CTRL]
      ensures (forall j: nat :: j < |ops| ==> !Inits(ops, j)) ==>
              hw.regs[DSI_INT_CTRL] == r0[DSI_INT_CTRL] && hw.regs[DSI_ERR_INT_MASK0] == r0[DSI_ERR_INT_MASK0]
      ensures LastInit(ops, k) ==>
              hw.regs[DSI_INT_CTRL] == {25} &&
              hw.regs[DSI_ERR_INT_MASK0] ==
                {0, 1, 2, 3, 4, 8, 9, 11, 12, 13, 20, 21, 22, 23, 24, 25, 28} +
                if ops[k].cfg.hsTimeout then {} else {6}
      ensures 0 in hw.regs[TEST_PATTERN_GEN_CTRL] <==> TPG in on
      ensures OTHER(o) in r0 && (forall k :: 0 <= k < |ops| ==> !Touches(ops[k], o)) ==>
              OTHER(o) in hw.regs && hw.regs[OTHER(o)] == r0[OTHER(o)]
    {
      hide Base, Touches, LastInit, Inits, SetsUp, Mirrors;
      if OTHER(o) in r0 && forall k :: 0 <= k < |ops| ==> !Touches(ops[k], o) {
        BaseOther(ops, r0, o);
      }
      EngineBits(ops, r0);
      if b > 2 {
        OtherBit(ops, r0, b);
      }
      OtherBit(ops, r0, 8);
      OtherBit(ops, r0, 20);
      OtherBit(ops, r0, 24);
      BaseClk(ops, r0);
      BaseInt(ops, r0, k);
      BaseTpg(ops, r0);
      OthersAgree(hw.regs, Base(ops, r0));
    }

    lemma EngineBits(ops: seq<Op>, r0: map<Reg, Word>)
      requires Known(r0) && Inv(Base(ops, r0))
      ensures 0 in hw.regs[DSI_CTRL] <==> ENGINE in on
      ensures 1 in hw.regs[DSI_CTRL] <==> VID in on
      ensures 2 in hw.regs[DSI_CTRL] <==> CMD in on
    {
      hide Base;
    }

    lemma OtherBit(ops: seq<Op>, r0: map<Reg, Word>, b: nat)
      requires Known(r0) && Inv(Base(ops, r0)) && b > 2
      ensures b in hw.regs[DSI_CTRL] <==> b in r0[DSI_CTRL] || Adds(ops, b)
    {
      hide Adds, Base;
      BaseCtrl(ops, r0, b);
      assert b in hw.regs[DSI_CTRL] - {0, 1, 2} <==> b in Base(ops, r0)[DSI_CTRL] - {0, 1, 2};
    }
  }

  /** Setting up the host in both keeps registers in agreement. */
  lemma SetUpMirrors(regs: map<Reg, Word>, st: set<Flag>, r0: map<Reg, Word>, cfg: HostConfig)
    requires Known(regs) && Known(r0) && Mirrors(regs[DSI_CTRL], st, r0[DSI_CTRL]) && Others(regs) == Others(r0)
    ensures Known(SetUp(regs, cfg)) && Known(SetUp(r0, cfg)) && Others(SetUp(regs, cfg)) == Others(SetUp(r0, cfg))
    ensures Mirrors(SetUp(regs, cfg)[DSI_CTRL], st, SetUp(r0, cfg)[DSI_CTRL])
  {
    MoreBits(regs[DSI_CTRL], st, r0[DSI_CTRL], cfg.CtrlBits());
    SetUpOthers(regs, r0, cfg);
  }

  /** So does setting the interrupts. */
  lemma WatchedMirrors(regs: map<Reg, Word>, st: set<Flag>, r0: map<Reg, Word>, cfg: HostConfig)
    requires Known(regs) && Known(r0) && Mirrors(regs[DSI_CTRL], st, r0[DSI_CTRL]) && Others(regs) == Others(r0)
    ensures Known(Watched(regs, cfg)) && Known(Watched(r0, cfg))
    ensures Others(Watched(regs, cfg)) == Others(Watched(r0, cfg))
    ensures Mirrors(Watched(regs, cfg)[DSI_CTRL], st, Watched(r0, cfg)[DSI_CTRL])
  {
    hide HostConfig.ErrorMask, Mirrors;
    WatchedOthers(regs, r0, cfg);
  }

  /** So does the test pattern. */
  lemma PatternedMirrors(regs: map<Reg, Word>, st: set<Flag>, r0: map<Reg, Word>, on: bool, cmd: bool)
    requires Known(regs) && Known(r0) && Mirrors(regs[DSI_CTRL], st, r0[DSI_CTRL]) && Others(regs) == Others(r0)
    ensures Known(Patterned(regs, on, cmd)) && Known(Patterned(r0, on, cmd))
    ensures Mirrors(Patterned(regs, on, cmd)[DSI_CTRL], st, Patterned(r0, on, cmd)[DSI_CTRL])
    ensures Others(Patterned(regs, on, cmd)) == Others(Patterned(r0, on, cmd))
  {
    PatternedOthers(regs, r0, on, cmd);
  }

  /** What a request returns. */
  function Answer(st: set<Flag>, op: Op): int {
    if Allows(st, op) then 0 else -22
  }
}
