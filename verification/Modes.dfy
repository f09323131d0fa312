// The table of display modes: every panel timing at every refresh rate and every bit
// clock, with porches that keep the refresh rate.

module Modes {
  import opened Arith
  import opened Rates

  /** A display mode.  `line` is the pixel clocks per line under DSC. */
  datatype Mode = Mode(hActive: nat, hBack: nat, hSync: nat, hFront: nat, hSkew: nat,
                       vActive: nat, vBack: nat, vSync: nat, vFront: nat,
                       fps: nat, clk: nat, pixelKhz: nat, dsc: bool, line: nat, cmd: bool, overlap: nat)

  datatype Porch = NO_ADJUST | ADJUST_HFP | ADJUST_VFP
  datatype Dfps = NO_DFPS | IMMEDIATE_VFP | IMMEDIATE_HFP | OTHER_DFPS

  /** What the panel and the display prescribe; `shown` is the mode now on display.  The
      driver refuses panels with empty lists of refresh rates or bit clocks. */
  datatype Config = Config(ctrls: nat, sublinks: nat, split: bool, lanes: nat, bpp: nat, cphy: bool,
                           dfps: Dfps, rates: seq<nat>, dynClk: bool, keepFps: Porch, bitClks: seq<nat>, shown: Mode)
  {
    predicate Ok() {
      ctrls > 0 && bpp > 0 && (dynClk ==> bitClks != []) && (dfps != NO_DFPS ==> rates != [])
    }

    function Width(): nat {
      if split && sublinks > 1 then sublinks else ctrls
    }
  }

  // ---------------------------------------------------------------------
  // Keeping the refresh rate
  // ---------------------------------------------------------------------

  /** The horizontal total without the front porch. */
  function HRest(m: Mode): nat {
    (if m.dsc then m.line else m.hActive) + m.hBack + m.hSync
  }

  function HTotal(m: Mode): nat {
    HRest(m) + m.hFront
  }

  function VTotal(m: Mode): nat {
    U32(m.vActive + m.vBack + m.vSync + m.vFront)
  }

  /** Bits per second of all lanes; on C-PHY, 16 bits for 7 symbols, times 7. */
  function Bits(cfg: Config, clk: nat): nat {
    clk * cfg.lanes * (if cfg.cphy then 16 else 1)
  }

  /** What a pixel column (or a line) costs in these units, when a frame has `other` pixels
      in each. */
  function Cost(cfg: Config, other: nat, fps: nat): nat {
    cfg.bpp * other * fps * (if cfg.cphy then 7 else 1)
  }

  /** do_div: the dividend has 64 bits and the divisor 32. */
  function Share(x: nat, d: nat): nat {
    if U32(d) == 0 then 0 else Quot(U64(x), U32(d))
  }

  lemma ShareIs(x: nat, d: nat)
    requires x < 0x1_0000_0000_0000_0000 && 0 < d < 0x1_0000_0000
    ensures Share(x, d) == Quot(x, d)
  {
    hide Quot;
  }

  /** The total that a mode at its bit clock has room for, when the other total is given. */
  function Room(cfg: Config, m: Mode, other: nat): nat {
    Share(Bits(cfg, m.clk), Cost(cfg, other, m.fps))
  }

  /** dsi_display_adjust_mode_timing. */
  method AdjustModeTiming(cfg: Config, m: Mode) returns (m': Mode)
    ensures m' == Adjusted(cfg, m)
  {
    m' := m;
    match cfg.keepFps {
      case NO_ADJUST =>
      case ADJUST_HFP =>
        var oldTotal, newTotal := HTotal(m), Room(cfg, m, VTotal(m));
        if oldTotal > newTotal {
          m' := m'.(hFront := U32(m.hFront - (oldTotal - newTotal)));
        } else {
          m' := m'.(hFront := U32(m.hFront + (newTotal - oldTotal)));
        }
      case ADJUST_VFP =>
        m' := m'.(vFront := U32(Room(cfg, m, HTotal(m)) - m.vBack - m.vSync - m.vActive));
    }
  }

  /** The front porch is what is left of the room; what it was before does not matter. */
  function Adjusted(cfg: Config, m: Mode): Mode {
    match cfg.keepFps
    case NO_ADJUST => m
    case ADJUST_HFP => m.(hFront := U32(Room(cfg, m, VTotal(m)) - HRest(m)))
    case ADJUST_VFP => m.(vFront := U32(Room(cfg, m, HTotal(m)) - (m.vBack + m.vSync + m.vActive)))
  }

  function PixelKhz(cfg: Config, clk: nat): nat
    requires cfg.bpp > 0
  {
    U32(U32(U64(clk * cfg.lanes) / cfg.bpp) / 1000 * cfg.ctrls)
  }

  /** Mode m at bit clock f. */
  function AtClock(cfg: Config, m: Mode, f: nat): Mode
    requires cfg.bpp > 0
  {
    Adjusted(cfg, m.(clk := f)).(pixelKhz := PixelKhz(cfg, f))
  }

  /** The units: on D-PHY a line of `total` pixels takes total * lines * fps * bpp of the bits
      that all lanes carry; on C-PHY 7 of 16 bits are lost to symbols. */
  lemma Units(cfg: Config, clk: nat, other: nat, fps: nat)
    ensures !cfg.cphy ==> Bits(cfg, clk) == clk * cfg.lanes && Cost(cfg, other, fps) == cfg.bpp * other * fps
    ensures cfg.cphy ==> Bits(cfg, clk) == clk * cfg.lanes * 16 && Cost(cfg, other, fps) == cfg.bpp * other * fps * 7
  {
  }

  /** The totals are all of a line, or of a column. */
  lemma Totals(m: Mode)
    ensures !m.dsc ==> HTotal(m) == m.hActive + m.hBack + m.hSync + m.hFront
    ensures m.dsc ==> HTotal(m) == m.line + m.hBack + m.hSync + m.hFront
    ensures m.vActive + m.vBack + m.vSync + m.vFront < 0x1_0000_0000 ==>
              VTotal(m) == m.vActive + m.vBack + m.vSync + m.vFront
  {
  }

  /** Whether or not there is room, modulo 2^32 the adjusted total is the room. */
  lemma AdjustedTotal(cfg: Config, m: Mode)
    ensures cfg.keepFps == ADJUST_HFP ==>
              Adjusted(cfg, m) == m.(hFront := Adjusted(cfg, m).hFront) &&
              U32(HTotal(Adjusted(cfg, m))) == U32(Room(cfg, m, VTotal(m)))
    ensures cfg.keepFps == ADJUST_VFP ==>
              Adjusted(cfg, m) == m.(vFront := Adjusted(cfg, m).vFront) &&
              VTotal(Adjusted(cfg, m)) == U32(Room(cfg, m, HTotal(m)))
    ensures cfg.keepFps == NO_ADJUST ==> Adjusted(cfg, m) == m
  {
    hide Room, U32;
    if cfg.keepFps == ADJUST_HFP {
      WrapSum(HRest(m), Room(cfg, m, VTotal(m)));
    } else if cfg.keepFps == ADJUST_VFP {
      WrapSum(m.vActive + m.vBack + m.vSync, Room(cfg, m, HTotal(m)));
      assert m.vBack + m.vSync + m.vActive == m.vActive + m.vBack + m.vSync;
    }
  }

  /** The pixel clock is that of the bits the lanes carry, in whole kilohertz, for all controllers. */
  lemma PixelKhzIs(cfg: Config, clk: nat) returns (khz: nat)
    requires cfg.bpp > 0 && clk * cfg.lanes < 0x1_0000_0000_0000_0000
    requires clk * cfg.lanes / cfg.bpp < 0x1_0000_0000
    requires clk * cfg.lanes / cfg.bpp / 1000 * cfg.ctrls < 0x1_0000_0000
    ensures PixelKhz(cfg, clk) == khz * cfg.ctrls
    ensures Product(khz * 1000, cfg.bpp) <= clk * cfg.lanes < Product(khz * 1000 + 1000, cfg.bpp)
  {
    hide U64;
    var bits := clk * cfg.lanes;
    Fits64(bits);
    var p := Quot(bits, cfg.bpp);
    khz := p / 1000;
    InBetween(bits, cfg.bpp, p, khz);
    assert U32(p) == p;
  }

  lemma InBetween(bits: nat, bpp: nat, p: nat, khz: nat)
    requires bpp > 0 && p == Quot(bits, bpp) && khz == p / 1000
    ensures Product(khz * 1000, bpp) <= bits < Product(khz * 1000 + 1000, bpp)
  {
    hide Product, Quot, Rem;
    Euclid(bits, bpp);
    Sum(p, 1, bpp);
    One(bpp);
    Monotone(khz * 1000, p, bpp);
    Monotone(p + 1, khz * 1000 + 1000, bpp);
  }

  /** A mode that was set to one bit clock and is then set to another is as if it had been
      set to the other at once, whether or not a porch has underflowed in between. */
  lemma ReclockingForgets(cfg: Config, m: Mode, f: nat, g: nat)
    requires cfg.bpp > 0
    ensures AtClock(cfg, AtClock(cfg, m, f), g) == AtClock(cfg, m, g)
  {
  }

  /** The numbers fit: the bit rate in 64 bits, the cost in 32 and above 0, and there is room
      for `rest` and a porch. */
  predicate Roomy(cfg: Config, m: Mode, other: nat, rest: nat) {
    Bits(cfg, m.clk) < 0x1_0000_0000_0000_0000 && 0 < Cost(cfg, other, m.fps) < 0x1_0000_0000 &&
    rest <= Room(cfg, m, other) < 0x1_0000_0000
  }

  /** Where the room is enough, the adjusted total is the largest that the bit clock allows
      at the refresh rate. */
  lemma RateIsKept(cfg: Config, m: Mode)
    requires cfg.keepFps == ADJUST_HFP && Roomy(cfg, m, VTotal(m), HRest(m))
    ensures var m' := Adjusted(cfg, m);
            var cost := Cost(cfg, VTotal(m'), m'.fps);
            Product(HTotal(m'), cost) <= Bits(cfg, m.clk) < Product(HTotal(m'), cost) + cost
  {
    hide Bits, Cost, Product, Quot, Rem, Share;
    ShareIs(Bits(cfg, m.clk), Cost(cfg, VTotal(m), m.fps));
    Euclid(Bits(cfg, m.clk), Cost(cfg, VTotal(m), m.fps));
  }

  /** The same for the vertical porch. */
  lemma LinesKeepRate(cfg: Config, m: Mode)
    requires cfg.keepFps == ADJUST_VFP && Roomy(cfg, m, HTotal(m), m.vBack + m.vSync + m.vActive)
    ensures var m' := Adjusted(cfg, m);
            var cost := Cost(cfg, HTotal(m'), m'.fps);
            Product(VTotal(m'), cost) <= Bits(cfg, m.clk) < Product(VTotal(m'), cost) + cost
  {
    hide Bits, Cost, Product, Quot, Rem, Share;
    ShareIs(Bits(cfg, m.clk), Cost(cfg, HTotal(m), m.fps));
    Euclid(Bits(cfg, m.clk), Cost(cfg, HTotal(m), m.fps));
  }

  // ---------------------------------------------------------------------
  // The table
  // ---------------------------------------------------------------------

  /** A panel timing, widened to all controllers (or sublinks). */
  function Widened(cfg: Config, m: Mode): Mode {
    var k := cfg.Width();
    Mode(U32(m.hActive * k), U32(m.hBack * k), U32(m.hSync * k), U32(m.hFront * k), U32(m.hSkew * k),
         m.vActive, m.vBack, m.vSync, m.vFront, m.fps, m.clk, U32(m.pixelKhz * k), m.dsc, m.line, m.cmd,
         if cfg.ctrls == 1 then 0 else m.overlap)
  }

  /** adjust_timing_by_ctrl_count. */
  function PerCtrl(cfg: Config, m: Mode): Mode
    requires cfg.Ok()
  {
    var k := cfg.Width();
    m.(hActive := m.hActive / k, hBack := m.hBack / k, hSync := m.hSync / k, hFront := m.hFront / k,
       hSkew := m.hSkew / k, pixelKhz := m.pixelKhz / k)
  }

  /** Dividing a widened timing among the controllers gives back the panel's timing, while
      nothing overflows. */
  lemma WidenedDivides(cfg: Config, m: Mode)
    requires cfg.Ok() && var k := cfg.Width();
             m.hActive * k < 0x1_0000_0000 && m.hBack * k < 0x1_0000_0000 && m.hSync * k < 0x1_0000_0000 &&
             m.hFront * k < 0x1_0000_0000 && m.hSkew * k < 0x1_0000_0000 && m.pixelKhz * k < 0x1_0000_0000
    ensures PerCtrl(cfg, Widened(cfg, m)) == m.(overlap := if cfg.ctrls == 1 then 0 else m.overlap)
    ensures Widened(cfg, m).hActive == m.hActive * (if cfg.split && cfg.sublinks > 1 then cfg.sublinks else cfg.ctrls)
  {
    var k := cfg.Width();
    Back(m.hActive, k);
    Back(m.hBack, k);
    Back(m.hSync, k);
    Back(m.hFront, k);
    Back(m.hSkew, k);
    Back(m.pixelKhz, k);
  }

  lemma Back(x: nat, k: nat)
    requires k > 0 && x * k < 0x1_0000_0000
    ensures U32(x * k) == x * k && U32(x * k) / k == x
  {
    hide U32;
    Fits32(x * k);
    QuotIs(x * k, k, x);
  }

  /** dsi_display_is_seamless_dfps_possible: nothing but the porch to be changed differs. */
  predicate Seamless(cfg: Config, m: Mode) {
    var cur := cfg.shown;
    cur.hActive == m.hActive && cur.hBack == m.hBack && cur.hSync == m.hSync && cur.hSkew == m.hSkew &&
    (cur.hFront == m.hFront || cfg.dfps == IMMEDIATE_HFP) &&
    cur.vActive == m.vActive && cur.vBack == m.vBack && cur.vSync == m.vSync &&
    (cur.vFront == m.vFront || cfg.dfps == IMMEDIATE_VFP)
  }

  /** The mode at refresh rate `fps`: dsi_display_get_dfps_timing, whose error is ignored.  A
      mode without a refresh rate is taken to have that of the mode on display. */
  function AtRate(cfg: Config, m: Mode, fps: nat): Mode
    requires cfg.Ok()
  {
    var n := m.(fps := fps);
    var c := PerCtrl(cfg, n);
    var was := if m.fps == 0 then cfg.shown.fps else m.fps;
    if m.fps == 0 && !Seamless(cfg, c) then n
    else
      match cfg.dfps
      case IMMEDIATE_VFP =>
        var fp := FrontPorch(was, fps, U32(HTotal(c)), VTotal(c), c.vFront);
        if fp < 0 then n else n.(vFront := fp)
      case IMMEDIATE_HFP =>
        var fp := FrontPorch(was, fps, VTotal(c), U32(HTotal(c) + c.overlap), c.hFront);
        if fp < 0 then n else n.(hFront := U32(fp * cfg.ctrls))
      case _ => n
  }

  /** The mode on display is the one asked about, except for what does not count and the porch
      to be changed. */
  lemma SeamlessIff(cfg: Config, m: Mode)
    ensures Seamless(cfg, m) <==>
            cfg.shown == Mode(m.hActive, m.hBack, m.hSync,
                              if cfg.dfps == IMMEDIATE_HFP then cfg.shown.hFront else m.hFront,
                              m.hSkew, m.vActive, m.vBack, m.vSync,
                              if cfg.dfps == IMMEDIATE_VFP then cfg.shown.vFront else m.vFront,
                              cfg.shown.fps, cfg.shown.clk, cfg.shown.pixelKhz, cfg.shown.dsc, cfg.shown.line,
                              cfg.shown.cmd, cfg.shown.overlap)
  {
  }

  /** The numbers of the vertical porch fit, and the porch can be computed. */
  predicate VRegular(cfg: Config, m: Mode, fps: nat)
    requires cfg.Ok()
  {
    m.fps > 0 && fps > 0 && U32(HTotal(PerCtrl(cfg, m))) > 0 &&
    m.vActive + m.vBack + m.vSync + m.vFront < 0x1_0000_0000 &&
    NoOverflow(m.fps, fps, m.vActive + m.vBack + m.vSync + m.vFront, m.vFront)
  }

  /** A mode at another rate by its vertical porch: nothing else changes; the lines of a frame,
      times the new rate, are the old ones times the old rate to within one new rate; and where
      even no porch leaves too many lines, the old porch stays. */
  lemma VerticalRate(cfg: Config, m: Mode, fps: nat)
    requires cfg.Ok() && cfg.dfps == IMMEDIATE_VFP && VRegular(cfg, m, fps)
    ensures var n := AtRate(cfg, m, fps);
            var rest := m.vActive + m.vBack + m.vSync;
            var total := rest + m.vFront;
            var t := Wanted(m.fps, fps, total);
            n == m.(fps := fps, vFront := if t >= rest then t - rest else m.vFront) &&
            if m.fps > fps then t * fps <= total * m.fps < t * fps + fps
            else total * m.fps <= t * fps < total * m.fps + fps
  {
    hide FrontPorch, NoOverflow, Wanted, HTotal, PerCtrl;
    var c := PerCtrl(cfg, m.(fps := fps));
    SameTotals(cfg, m, fps);
    WantedIs(m.fps, fps, VTotal(m));
    FrontPorchIs(m.fps, fps, U32(HTotal(c)), VTotal(m), m.vFront);
  }

  lemma SameTotals(cfg: Config, m: Mode, fps: nat)
    requires cfg.Ok()
    ensures PerCtrl(cfg, m).hFront <= HTotal(PerCtrl(cfg, m))
    ensures PerCtrl(cfg, m.(fps := fps)).hFront == PerCtrl(cfg, m).hFront
    ensures var c := PerCtrl(cfg, m.(fps := fps));
            HTotal(c) == HTotal(PerCtrl(cfg, m)) && VTotal(c) == VTotal(m) && c.vFront == m.vFront &&
            c.hFront == m.hFront / cfg.Width() && c.overlap == m.overlap
  {
  }

  predicate HRegular(cfg: Config, m: Mode, fps: nat)
    requires cfg.Ok()
  {
    var c := PerCtrl(cfg, m);
    m.fps > 0 && fps > 0 && VTotal(m) > 0 && HTotal(c) + m.overlap < 0x1_0000_0000 &&
    NoOverflow(m.fps, fps, HTotal(c) + m.overlap, c.hFront)
  }

  /** The same by the horizontal porch, which each controller has its share of. */
  lemma HorizontalRate(cfg: Config, m: Mode, fps: nat)
    requires cfg.Ok() && cfg.dfps == IMMEDIATE_HFP && HRegular(cfg, m, fps)
    ensures var n, c := AtRate(cfg, m, fps), PerCtrl(cfg, m);
            var total := HTotal(c) + m.overlap;
            var rest := total - c.hFront;
            var t := Wanted(m.fps, fps, total);
            n == m.(fps := fps, hFront := if t >= rest then U32((t - rest) * cfg.ctrls) else m.hFront) &&
            if m.fps > fps then t * fps <= total * m.fps < t * fps + fps
            else total * m.fps <= t * fps < total * m.fps + fps
  {
    hide FrontPorch, NoOverflow, Wanted, PerCtrl, HTotal, VTotal, U32, Product;
    var c := PerCtrl(cfg, m);
    SameTotals(cfg, m, fps);
    var total := HTotal(c) + m.overlap;
    Fits32(total);
    WantedIs(m.fps, fps, total);
    FrontPorchIs(m.fps, fps, VTotal(m), total, c.hFront);
  }

  /** A mode without a refresh rate takes that of the mode on display, if it may. */
  lemma WithoutRate(cfg: Config, m: Mode, fps: nat)
    requires cfg.Ok() && m.fps == 0
    ensures !Seamless(cfg, PerCtrl(cfg, m.(fps := fps))) ==> AtRate(cfg, m, fps) == m.(fps := fps)
    ensures Seamless(cfg, PerCtrl(cfg, m.(fps := fps))) && cfg.shown.fps > 0 ==>
              AtRate(cfg, m, fps) == AtRate(cfg, m.(fps := cfg.shown.fps), fps)
  {
    hide FrontPorch, Seamless, PerCtrl, HTotal, VTotal;
    assert m.(fps := cfg.shown.fps).(fps := fps) == m.(fps := fps);
  }

  /** Other ways of changing the rate leave the porches alone. */
  lemma OtherRate(cfg: Config, m: Mode, fps: nat)
    requires cfg.Ok() && (cfg.dfps == OTHER_DFPS || cfg.dfps == NO_DFPS)
    ensures AtRate(cfg, m, fps) == m.(fps := fps)
  {
  }

  function RateCount(cfg: Config): nat {
    if cfg.dfps == NO_DFPS then 1 else |cfg.rates|
  }

  function ClockCount(cfg: Config): nat {
    if cfg.dynClk then |cfg.bitClks| else 1
  }

  /** The sub-mode of a timing for refresh rate f. */
  function SubMode(cfg: Config, m: Mode, f: nat): Mode
    requires cfg.Ok() && f < RateCount(cfg)
  {
    if cfg.dfps == NO_DFPS || m.cmd then m else AtRate(cfg, m, cfg.rates[f])
  }

  /** What belongs in the slot of a timing, a bit clock and a refresh rate. */
  function Slot(cfg: Config, m: Mode, c: nat, f: nat): Mode
    requires cfg.Ok() && c < ClockCount(cfg) && f < RateCount(cfg)
  {
    var sub := SubMode(cfg, Widened(cfg, m), f);
    if cfg.dynClk then AtClock(cfg, sub, cfg.bitClks[c]) else sub
  }

  /** One row: all refresh rates at one bit clock. */
  function Row(cfg: Config, m: Mode, c: nat): (r: seq<Mode>)
    requires cfg.Ok() && c < ClockCount(cfg)
    ensures |r| == RateCount(cfg) && forall f :: 0 <= f < |r| ==> r[f] == Slot(cfg, m, c, f)
  {
    seq(RateCount(cfg), f requires 0 <= f < RateCount(cfg) => Slot(cfg, m, c, f))
  }

  function Rows(cfg: Config, m: Mode, n: nat): seq<Mode>
    requires cfg.Ok() && n <= ClockCount(cfg)
  {
    if n == 0 then [] else Rows(cfg, m, n - 1) + Row(cfg, m, n - 1)
  }

  function Table(cfg: Config, timings: seq<Mode>): seq<Mode>
    requires cfg.Ok()
  {
    if timings == [] then []
    else Table(cfg, timings[..|timings| - 1]) + Rows(cfg, timings[|timings| - 1], ClockCount(cfg))
  }

  lemma {:induction false} RowsSize(cfg: Config, m: Mode, n: nat)
    requires cfg.Ok() && n <= ClockCount(cfg)
    ensures |Rows(cfg, m, n)| == Product(n, RateCount(cfg))
  {
    hide Row;
    if n > 0 {
      RowsSize(cfg, m, n - 1);
      Sum(n - 1, 1, RateCount(cfg));
      One(RateCount(cfg));
    }
  }

  /** Row c, place f. */
  lemma {:induction false} RowsAt(cfg: Config, m: Mode, n: nat, c: nat, f: nat)
    requires cfg.Ok() && c < n <= ClockCount(cfg) && f < RateCount(cfg)
    ensures Product(c, RateCount(cfg)) + f < |Rows(cfg, m, n)|
    ensures Rows(cfg, m, n)[Product(c, RateCount(cfg)) + f] == Slot(cfg, m, c, f)
  {
    hide Slot, Product;
    RowsSize(cfg, m, n - 1);
    if c < n - 1 {
      RowsAt(cfg, m, n - 1, c, f);
    }
  }

  lemma {:induction false} TableSize(cfg: Config, timings: seq<Mode>)
    requires cfg.Ok()
    ensures |Table(cfg, timings)| == Product(|timings|, Product(ClockCount(cfg), RateCount(cfg)))
  {
    hide Row, Rows, Product;
    var n := Product(ClockCount(cfg), RateCount(cfg));
    if timings == [] {
      assert Product(0, n) == 0 by {
        Sum(0, 0, n);
      }
    } else {
      TableSize(cfg, timings[..|timings| - 1]);
      RowsSize(cfg, timings[|timings| - 1], ClockCount(cfg));
      Sum(|timings| - 1, 1, n);
      One(n);
    }
  }

  /** The table is a cross product: with C bit clocks and F refresh rates, slot
      t * C * F + c * F + f holds timing t at bit clock c and refresh rate f. */
  lemma {:induction false} TableAt(cfg: Config, timings: seq<Mode>, t: nat, c: nat, f: nat)
    requires cfg.Ok() && t < |timings| && c < ClockCount(cfg) && f < RateCount(cfg)
    ensures var k := Product(t, Product(ClockCount(cfg), RateCount(cfg))) + Product(c, RateCount(cfg)) + f;
            k < |Table(cfg, timings)| && Table(cfg, timings)[k] == Slot(cfg, timings[t], c, f)
  {
    hide Slot, Row, Rows, Product;
    var past := timings[..|timings| - 1];
    TableSize(cfg, past);
    if t < |past| {
      TableAt(cfg, past, t, c, f);
    } else {
      RowsAt(cfg, timings[t], ClockCount(cfg), c, f);
    }
  }

  /** Without a choice of rates and clocks, the table is the widened timings. */
  lemma {:induction false} PlainTable(cfg: Config, timings: seq<Mode>)
    requires cfg.Ok() && cfg.dfps == NO_DFPS && !cfg.dynClk
    ensures |Table(cfg, timings)| == |timings|
    ensures forall t :: 0 <= t < |timings| ==> Table(cfg, timings)[t] == Widened(cfg, timings[t])
  {
    hide Widened;
    if timings != [] {
      PlainTable(cfg, timings[..|timings| - 1]);
      assert Rows(cfg, timings[|timings| - 1], 1) == Row(cfg, timings[|timings| - 1], 0) by {
        RowOne(cfg, timings[|timings| - 1]);
      }
    }
  }

  /** What the place of a slot says is in the mode: its bit clock and its refresh rate. */
  lemma SlotCarries(cfg: Config, m: Mode, c: nat, f: nat)
    requires cfg.Ok() && c < ClockCount(cfg) && f < RateCount(cfg)
    ensures cfg.dynClk ==> Slot(cfg, m, c, f).clk == cfg.bitClks[c]
    ensures Slot(cfg, m, c, f).fps == if cfg.dfps == NO_DFPS || m.cmd then m.fps else cfg.rates[f]
    ensures Slot(cfg, m, c, f).pixelKhz ==
            if cfg.dynClk then PixelKhz(cfg, cfg.bitClks[c]) else Widened(cfg, m).pixelKhz
    ensures (cfg.dfps == NO_DFPS || m.cmd) && !cfg.dynClk ==> Slot(cfg, m, c, f) == Widened(cfg, m)
  {
    hide PixelKhz;
  }

  /** What the table holds of a timing at another refresh rate: the vertical porch is the one
      that keeps the clock, unless it is adjusted to a bit clock; for the horizontal one too. */
  lemma SlotKeepsClock(cfg: Config, m: Mode, c: nat, f: nat)
    requires cfg.Ok() && c < ClockCount(cfg) && f < RateCount(cfg) && !m.cmd
    ensures var s, w := Slot(cfg, m, c, f), Widened(cfg, m);
            cfg.dfps == IMMEDIATE_VFP && VRegular(cfg, w, cfg.rates[f]) &&
            (cfg.dynClk ==> cfg.keepFps != ADJUST_VFP) ==>
              var rest := w.vActive + w.vBack + w.vSync;
              var t := Wanted(w.fps, cfg.rates[f], rest + w.vFront);
              s.fps == cfg.rates[f] && s.vActive + s.vBack + s.vSync == rest &&
              s.vFront == if t >= rest then t - rest else w.vFront
    ensures var s, w := Slot(cfg, m, c, f), Widened(cfg, m);
            cfg.dfps == IMMEDIATE_HFP && HRegular(cfg, w, cfg.rates[f]) &&
            (cfg.dynClk ==> cfg.keepFps != ADJUST_HFP) ==>
              var p := PerCtrl(cfg, w);
              var rest := HTotal(p) + w.overlap - p.hFront;
              var t := Wanted(w.fps, cfg.rates[f], rest + p.hFront);
              s.fps == cfg.rates[f] && s.hActive == w.hActive && s.hBack == w.hBack && s.hSync == w.hSync &&
              s.hFront == if t >= rest then U32((t - rest) * cfg.ctrls) else w.hFront
  {
    hide AtRate, Wanted, Widened, VRegular, HRegular, Room, HTotal, PerCtrl, PixelKhz;
    var w := Widened(cfg, m);
    assert w.cmd == m.cmd by {
      WidenedCmd(cfg, m);
    }
    if cfg.dfps == IMMEDIATE_VFP && VRegular(cfg, w, cfg.rates[f]) {
      VerticalRate(cfg, w, cfg.rates[f]);
    }
    if cfg.dfps == IMMEDIATE_HFP && HRegular(cfg, w, cfg.rates[f]) {
      HorizontalRate(cfg, w, cfg.rates[f]);
    }
  }

  lemma WidenedCmd(cfg: Config, m: Mode)
    ensures Widened(cfg, m).cmd == m.cmd && Widened(cfg, m).fps == m.fps
  {
  }

  /** The refresh rate is kept throughout the table: in each slot with room for it, the total
      is the largest that the slot's bit clock allows at the slot's refresh rate. */
  lemma TableKeepsRate(cfg: Config, m: Mode, c: nat, f: nat)
    requires cfg.Ok() && cfg.dynClk && c < ClockCount(cfg) && f < RateCount(cfg)
    ensures var s := Slot(cfg, m, c, f);
            var bits := Bits(cfg, cfg.bitClks[c]);
            (cfg.keepFps == ADJUST_HFP && Roomy(cfg, s, VTotal(s), HRest(s)) ==>
              var cost := Cost(cfg, VTotal(s), s.fps);
              Product(HTotal(s), cost) <= bits < Product(HTotal(s), cost) + cost) &&
            (cfg.keepFps == ADJUST_VFP && Roomy(cfg, s, HTotal(s), s.vBack + s.vSync + s.vActive) ==>
              var cost := Cost(cfg, HTotal(s), s.fps);
              Product(VTotal(s), cost) <= bits < Product(VTotal(s), cost) + cost)
  {
    hide SubMode, Bits, Cost, Product, Share, U32, U64, Widened;
    var s := Slot(cfg, m, c, f);
    var n := SubMode(cfg, Widened(cfg, m), f).(clk := cfg.bitClks[c]);
    if cfg.keepFps == ADJUST_HFP && Roomy(cfg, s, VTotal(s), HRest(s)) {
      RateIsKept(cfg, n);
    }
    if cfg.keepFps == ADJUST_VFP && Roomy(cfg, s, HTotal(s), s.vBack + s.vSync + s.vActive) {
      LinesKeepRate(cfg, n);
    }
  }

  // ---------------------------------------------------------------------
  // Its size, and what the driver allocates
  // ---------------------------------------------------------------------

  // The timing nodes of a panel come as their kinds: true for a command timing.

  function CmdCount(kinds: seq<bool>): (a: nat)
    ensures a <= |kinds| && a == multiset(kinds)[true]
  {
    if kinds == [] then 0
    else
      assert kinds == kinds[..|kinds| - 1] + [kinds[|kinds| - 1]];
      CmdCount(kinds[..|kinds| - 1]) + if kinds[|kinds| - 1] then 1 else 0
  }

  /** num_display_modes: command timings are not multiplied by the refresh rates. */
  function ModeCount(cfg: Config, kinds: seq<bool>): nat {
    var a := CmdCount(kinds);
    Product(a, ClockCount(cfg)) + Product(|kinds| - a, Product(ClockCount(cfg), RateCount(cfg)))
  }

  /** dsi_panel_get_mode_count: the mode count, and the number of timings that will be used.
      That is one for a panel with a single mode, but all its nodes are counted. */
  method GetModeCount(cfg: Config, kinds: seq<bool>, single: bool) returns (count: nat, used: nat)
    ensures count == ModeCount(cfg, kinds) && used == if single then 1 else |kinds|
  {
    used := |kinds|;
    if single {
      used := 1;
    }
    var cmds, videos, i := 0, 0, 0;
    while i < |kinds|
      invariant 0 <= i <= |kinds| && cmds == CmdCount(kinds[..i]) && videos == i - cmds
    {
      assert kinds[..i + 1][..i] == kinds[..i];
      if kinds[i] {
        cmds := cmds + 1;
      } else {
        videos := videos + 1;
      }
      i := i + 1;
    }
    assert kinds[..i] == kinds;
    count := Product(cmds, ClockCount(cfg)) + Product(videos, Product(ClockCount(cfg), RateCount(cfg)));
  }

  /** Whether filling the table of n timings stays in an array of this size: there is room for
      all of it, or for whole rows up to the first one of the last timing. */
  predicate Fits(cfg: Config, n: nat, size: nat)
    requires cfg.Ok()
  {
    n == 0 || Product(Product(n, ClockCount(cfg)), RateCount(cfg)) <= size ||
    (Rem(size, RateCount(cfg)) == 0 &&
     Product(Product(n - 1, ClockCount(cfg)), RateCount(cfg)) + RateCount(cfg) <= size)
  }

  /** Whether the mode count is that of the whole table. */
  predicate Snug(cfg: Config, kinds: seq<bool>) {
    CmdCount(kinds) == 0 || RateCount(cfg) == 1
  }

  lemma FitCount(a: nat, v: nat, c: nat, f: nat) returns (k: nat)
    requires c >= 1 && f >= 1 && a + v >= 1 && (a == 0 || f == 1 || (a == 1 && Rem(c, f) == 0))
    ensures Product(a, c) + Product(v, Product(c, f)) == Product(k, f)
    ensures Product(k, f) >= Product(Product(a + v - 1, c), f) + f
  {
    hide Product, Quot, Rem;
    var rest := Product(a + v - 1, c);
    Sum(a + v - 1, 1, c);
    One(c);
    One(f);
    Sum(rest, c, f);
    Group(v, c, f);
    Monotone(1, c, f);
    if a == 0 {
      k := Product(v, c);
      Zero(c);
    } else if f == 1 {
      k := Product(a + v, c);
      Sum(a, v, c);
      Times(c, f);
      Times(k, f);
    } else {
      var q := Quot(c, f);
      Euclid(c, f);
      k := q + rest;
      Sum(q, rest, f);
      Zero(f);
      Monotone(1, q, f);
    }
  }

  /** When the whole table is written, it was allocated. */
  lemma WholeCount(a: nat, v: nat, c: nat, f: nat)
    requires c >= 1 && f >= 1 && Product(Product(a + v, c), f) <= Product(a, c) + Product(v, Product(c, f))
    ensures a == 0 || f == 1
  {
    hide Product;
    Sum(a, v, c);
    Sum(Product(a, c), Product(v, c), f);
    Group(v, c, f);
    Times(Product(a, c), f);
    AtLeast(a, c);
  }

  /** When rows of the last timing are skipped, there is a single command timing. */
  lemma PartCount(a: nat, v: nat, c: nat, f: nat, k: nat)
    requires c >= 1 && f >= 1 && a + v >= 1 && Product(a, c) + Product(v, Product(c, f)) == Product(k, f)
    requires Product(a + v - 1, c) < k < Product(a + v, c)
    ensures a == 1 && Rem(c, f) == 0
  {
    hide Product, Quot, Rem;
    Sum(a + v - 1, 1, c);
    One(c);
    Sum(a, v, c);
    Group(v, c, f);
    if k < Product(v, c) {
      Monotone(k + 1, Product(v, c), f);
      Sum(k, 1, f);
      One(f);
    }
    if a == 0 {
      Zero(c);
    }
    assert k >= Product(v, c);
    var j := k - Product(v, c);
    Sum(Product(v, c), j, f);
    Times(j, f);
    Half(a, c, f, j);
    Euclid(c, f);
    QuotIs(c, f, j);
  }

  lemma Half(a: nat, c: nat, f: nat, j: nat)
    requires Product(a, c) == Product(j, f) && j < Product(a, c) < j + c && f >= 1
    ensures a <= 1 && (a == 1 ==> Product(a, c) == c)
  {
    assert f > 1;
    assert j * f >= j * 2;
    assert (a - 1) * c < j;
    if a >= 2 {
      Twice(a - 1, c);
    }
  }

  lemma Twice(a: nat, c: nat)
    requires a >= 1
    ensures (a + 1) * c <= 2 * (a * c)
  {
    assert a * c >= c;
  }

  // ---------------------------------------------------------------------
  // Filling it
  // ---------------------------------------------------------------------

  /** dsi_display_get_dfps_timing of a mode that already has its new refresh rate. */
  method DfpsTiming(cfg: Config, m: Mode, curFps: nat) returns (m': Mode)
    requires cfg.Ok()
    ensures m' == AtRate(cfg, m.(fps := curFps), m.fps)
  {
    hide FrontPorch, PerCtrl, HTotal, VTotal, Seamless, U32;
    m' := m;
    var c, was := PerCtrl(cfg, m), curFps;
    assert PerCtrl(cfg, m.(fps := curFps).(fps := m.fps)) == c;
    if was == 0 {
      if !Seamless(cfg, c) {
        return;
      }
      was := cfg.shown.fps;
    }
    match cfg.dfps {
      case IMMEDIATE_VFP =>
        var rc, fp := CalcFrontPorch(was, m.fps, U32(HTotal(c)), VTotal(c), c.vFront);
        if rc == 0 {
          m' := m'.(vFront := fp);
        }
      case IMMEDIATE_HFP =>
        var rc, fp := CalcFrontPorch(was, m.fps, VTotal(c), U32(HTotal(c) + c.overlap), c.hFront);
        if rc == 0 {
          m' := m'.(hFront := U32(fp * cfg.ctrls));
        }
      case _ =>
    }
  }

  // An access outside the array ends these methods with `ok` false; what the program does
  // from there on is undefined.

  /** The sub-modes of a timing: one for each refresh rate. */
  method FillRates(cfg: Config, m: Mode, modes: array<Mode>, start: nat) returns (ok: bool)
    requires cfg.Ok() && start <= modes.Length
    modifies modes
    ensures ok <==> start + RateCount(cfg) <= modes.Length
    ensures ok ==> modes[..start] == old(modes[..start])
    ensures ok ==> forall f :: 0 <= f < RateCount(cfg) ==> modes[start + f] == SubMode(cfg, m, f)
  {
    hide AtRate;
    var i := 0;
    while i < RateCount(cfg)
      invariant 0 <= i <= RateCount(cfg) && start + i <= modes.Length && modes[..start] == old(modes[..start])
      invariant forall f :: 0 <= f < i ==> modes[start + f] == SubMode(cfg, m, f)
    {
      if start + i >= modes.Length {
        return false;
      }
      var sub := m;
      if cfg.dfps != NO_DFPS && !m.cmd {
        sub := DfpsTiming(cfg, m.(fps := cfg.rates[i]), m.fps);
        assert m.(fps := cfg.rates[i]).(fps := m.fps) == m;
      }
      modes[start + i] := sub;
      i := i + 1;
    }
    ok := true;
  }

  /** A mode set to a bit clock. */
  method SetClock(cfg: Config, m: Mode, f: nat) returns (m': Mode)
    requires cfg.Ok()
    ensures m' == AtClock(cfg, m, f)
  {
    hide Adjusted;
    m' := AdjustModeTiming(cfg, m.(clk := f));
    m' := m'.(pixelKhz := PixelKhz(cfg, f));
  }

  /** The first loop of _dsi_display_populate_bit_clks. */
  method FirstRow(cfg: Config, modes: array<Mode>, start: nat, ghost m: Mode)
    requires cfg.Ok() && cfg.dynClk && start + RateCount(cfg) <= modes.Length
    requires forall f :: 0 <= f < RateCount(cfg) ==> modes[start + f] == SubMode(cfg, Widened(cfg, m), f)
    modifies modes
    ensures modes[..start + RateCount(cfg)] == old(modes[..start]) + Row(cfg, m, 0)
  {
    hide AtClock, SubMode;
    var i := 0;
    while i < RateCount(cfg)
      invariant 0 <= i <= RateCount(cfg) && modes[..start] == old(modes[..start])
      invariant forall f :: 0 <= f < i ==> modes[start + f] == Slot(cfg, m, 0, f)
      invariant forall f :: i <= f < RateCount(cfg) ==> modes[start + f] == SubMode(cfg, Widened(cfg, m), f)
    {
      var n := SetClock(cfg, modes[start + i], cfg.bitClks[0]);
      modes[start + i] := n;
      i := i + 1;
    }
    hide Slot;
    assert forall f :: 0 <= f < RateCount(cfg) ==> modes[start..start + RateCount(cfg)][f] == Row(cfg, m, 0)[f];
    assert modes[start..start + RateCount(cfg)] == Row(cfg, m, 0);
    assert modes[..start + RateCount(cfg)] == modes[..start] + modes[start..start + RateCount(cfg)];
  }

  /** One round of its second loop: the first row again, at another bit clock. */
  method NextRow(cfg: Config, modes: array<Mode>, start: nat, idx: nat, c: nat, ghost m: Mode) returns (ok: bool)
    requires cfg.Ok() && cfg.dynClk && 0 < c < ClockCount(cfg)
    requires start + RateCount(cfg) <= idx <= modes.Length
    requires forall f :: 0 <= f < RateCount(cfg) ==> modes[start + f] == Slot(cfg, m, 0, f)
    modifies modes
    ensures ok <==> idx + RateCount(cfg) <= modes.Length
    ensures ok ==> modes[..idx + RateCount(cfg)] == old(modes[..idx]) + Row(cfg, m, c)
  {
    var j := 0;
    while j < RateCount(cfg)
      invariant 0 <= j <= RateCount(cfg) && idx + j <= modes.Length && modes[..idx] == old(modes[..idx])
      invariant forall f :: 0 <= f < RateCount(cfg) ==> modes[start + f] == Slot(cfg, m, 0, f)
      invariant forall f :: 0 <= f < j ==> modes[idx + f] == Slot(cfg, m, c, f)
    {
      if idx + j >= modes.Length {
        return false;
      }
      var n := SetClock(cfg, modes[start + j], cfg.bitClks[c]);
      Reslotted(cfg, m, c, j);
      modes[idx + j] := n;
      j := j + 1;
    }
    ok := true;
    hide Slot;
    assert modes[idx..idx + RateCount(cfg)] == Row(cfg, m, c);
    assert modes[..idx + RateCount(cfg)] == modes[..idx] + modes[idx..idx + RateCount(cfg)];
  }

  lemma Reslotted(cfg: Config, m: Mode, c: nat, f: nat)
    requires cfg.Ok() && cfg.dynClk && c < ClockCount(cfg) && f < RateCount(cfg)
    ensures AtClock(cfg, Slot(cfg, m, 0, f), cfg.bitClks[c]) == Slot(cfg, m, c, f)
  {
    hide SubMode;
    ReclockingForgets(cfg, SubMode(cfg, Widened(cfg, m), f), cfg.bitClks[0], cfg.bitClks[c]);
  }

  lemma RowsStep(cfg: Config, m: Mode, c: nat)
    requires cfg.Ok() && c < ClockCount(cfg)
    ensures Rows(cfg, m, c + 1) == Rows(cfg, m, c) + Row(cfg, m, c)
    ensures |Rows(cfg, m, c + 1)| == |Rows(cfg, m, c)| + RateCount(cfg) <= |Rows(cfg, m, ClockCount(cfg))|
    ensures |Rows(cfg, m, c)| >= (if c > 0 then RateCount(cfg) else 0)
  {
    hide Row, Product;
    RowsSize(cfg, m, c + 1);
    RowsSize(cfg, m, c);
    RowsSize(cfg, m, ClockCount(cfg));
    Monotone(c + 1, ClockCount(cfg), RateCount(cfg));
    if c > 0 {
      Monotone(1, c, RateCount(cfg));
      One(RateCount(cfg));
    }
  }

  /** The first row stays where it is. */
  lemma RowZero(cfg: Config, m: Mode, n: nat, f: nat)
    requires cfg.Ok() && 0 < n <= ClockCount(cfg) && f < RateCount(cfg)
    ensures f < |Rows(cfg, m, n)| && Rows(cfg, m, n)[f] == Slot(cfg, m, 0, f)
  {
    hide Slot, Product;
    RowsAt(cfg, m, n, 0, f);
    assert Product(0, RateCount(cfg)) == 0 by {
      Sum(0, 0, RateCount(cfg));
    }
  }

  /** One more row behind the rows so far. */
  method GrowRows(cfg: Config, modes: array<Mode>, start: nat, idx: nat, c: nat, ghost m: Mode, ghost pre: seq<Mode>)
    returns (ok: bool)
    requires cfg.Ok() && cfg.dynClk && 0 < c < ClockCount(cfg)
    requires start == |pre| && idx == start + |Rows(cfg, m, c)| <= modes.Length
    requires modes[..idx] == pre + Rows(cfg, m, c)
    modifies modes
    ensures ok <==> idx + RateCount(cfg) <= modes.Length
    ensures ok ==> modes[..idx + RateCount(cfg)] == pre + Rows(cfg, m, c + 1)
  {
    hide Rows, Row, Slot;
    RowsStep(cfg, m, c);
    RowsStep(cfg, m, c - 1);
    forall f | 0 <= f < RateCount(cfg)
      ensures start + f < idx && modes[start + f] == Slot(cfg, m, 0, f)
    {
      RowZero(cfg, m, c, f);
      assert modes[start + f] == modes[..idx][start + f];
    }
    ok := NextRow(cfg, modes, start, idx, c, m);
    assert pre + Rows(cfg, m, c) + Row(cfg, m, c) == pre + Rows(cfg, m, c + 1);
  }

  /** Its second loop, behind the first row. */
  method MoreRows(cfg: Config, modes: array<Mode>, start: nat, ghost m: Mode, ghost pre: seq<Mode>)
    returns (ok: bool, idx: nat, ghost n: nat)
    requires cfg.Ok() && cfg.dynClk && start == |pre| && start + RateCount(cfg) <= modes.Length
    requires |Rows(cfg, m, 1)| == RateCount(cfg) && modes[..start + RateCount(cfg)] == pre + Rows(cfg, m, 1)
    modifies modes
    ensures 0 < n <= ClockCount(cfg) && idx == start + |Rows(cfg, m, n)| <= modes.Length
    ensures ok ==> modes[..idx] == pre + Rows(cfg, m, n)
    ensures ok && n < ClockCount(cfg) ==> idx == modes.Length
    ensures !ok ==> n < ClockCount(cfg) && idx < modes.Length < idx + RateCount(cfg)
  {
    hide Rows, Row, SubMode, Slot, Widened, Product;
    ok, idx, n := true, start + RateCount(cfg), 1;
    var i := 1;
    while i < |cfg.bitClks|
      invariant 1 <= i == n <= |cfg.bitClks| && idx == start + |Rows(cfg, m, n)| && idx <= modes.Length
      invariant ok && modes[..idx] == pre + Rows(cfg, m, n)
    {
      RowsStep(cfg, m, n);
      if idx >= modes.Length {
        return;
      }
      ok := GrowRows(cfg, modes, start, idx, i, m, pre);
      if !ok {
        return;
      }
      idx, i, n := idx + RateCount(cfg), i + 1, n + 1;
    }
  }

  /** _dsi_display_populate_bit_clks.  It writes n rows: all of them, unless the array is
      full before, or ends inside the next one. */
  method PopulateBitClks(cfg: Config, modes: array<Mode>, start: nat, ghost m: Mode)
    returns (ok: bool, idx: nat, ghost n: nat)
    requires cfg.Ok() && start + RateCount(cfg) <= modes.Length
    requires forall f :: 0 <= f < RateCount(cfg) ==> modes[start + f] == SubMode(cfg, Widened(cfg, m), f)
    modifies modes
    ensures 0 < n <= ClockCount(cfg) && idx == start + |Rows(cfg, m, n)| <= modes.Length
    ensures ok ==> modes[..idx] == old(modes[..start]) + Rows(cfg, m, n)
    ensures ok && n < ClockCount(cfg) ==> idx == modes.Length
    ensures !ok ==> n < ClockCount(cfg) && idx < modes.Length < idx + RateCount(cfg)
  {
    hide Rows, Row, SubMode, Slot, Widened, Product;
    ghost var pre := modes[..start];
    RowOne(cfg, m);
    if cfg.dynClk {
      FirstRow(cfg, modes, start, m);
      ok, idx, n := MoreRows(cfg, modes, start, m, pre);
    } else {
      ok, idx, n := true, start + RateCount(cfg), 1;
      PlainRow(cfg, modes[start..idx], m);
      assert modes[..idx] == pre + modes[start..idx];
    }
  }

  lemma RowOne(cfg: Config, m: Mode)
    requires cfg.Ok()
    ensures Rows(cfg, m, 1) == Row(cfg, m, 0)
  {
    hide Row;
    RowsNone(cfg, m);
    RowsStep(cfg, m, 0);
  }

  lemma RowsNone(cfg: Config, m: Mode)
    requires cfg.Ok()
    ensures Rows(cfg, m, 0) == [] && Rows(cfg, m, 0) + Row(cfg, m, 0) == Row(cfg, m, 0)
  {
  }

  /** Without a choice of bit clocks the sub-modes are the only row. */
  lemma PlainRow(cfg: Config, s: seq<Mode>, m: Mode)
    requires cfg.Ok() && !cfg.dynClk && |s| == RateCount(cfg)
    requires forall f :: 0 <= f < |s| ==> s[f] == SubMode(cfg, Widened(cfg, m), f)
    ensures s == Row(cfg, m, 0)
  {
    hide SubMode;
  }

  /** The first rows of a timing. */
  lemma RowsPrefix(cfg: Config, m: Mode, n: nat)
    requires cfg.Ok() && n <= ClockCount(cfg)
    ensures |Rows(cfg, m, n)| <= |Rows(cfg, m, ClockCount(cfg))|
    ensures Rows(cfg, m, ClockCount(cfg))[..|Rows(cfg, m, n)|] == Rows(cfg, m, n)
    decreases ClockCount(cfg) - n
  {
    hide Row;
    if n < ClockCount(cfg) {
      RowsPrefix(cfg, m, n + 1);
      var all, k, k' := Rows(cfg, m, ClockCount(cfg)), |Rows(cfg, m, n)|, |Rows(cfg, m, n + 1)|;
      assert all[..k] == all[..k'][..k];
    }
  }

  /** The table of the first timings, and n rows of the next one. */
  lemma TableStep(cfg: Config, timings: seq<Mode>, t: nat, n: nat)
    requires cfg.Ok() && t < |timings| && n <= ClockCount(cfg)
    ensures |Table(cfg, timings[..t])| == Product(Product(t, ClockCount(cfg)), RateCount(cfg))
    ensures var s := Table(cfg, timings[..t]) + Rows(cfg, timings[t], n);
            |s| == Product(Product(t, ClockCount(cfg)) + n, RateCount(cfg)) <= |Table(cfg, timings[..t + 1])| &&
            Table(cfg, timings[..t + 1])[..|s|] == s &&
            (n == ClockCount(cfg) ==> s == Table(cfg, timings[..t + 1]))
  {
    hide Rows, Product;
    assert timings[..t + 1][..t] == timings[..t];
    TableSize(cfg, timings[..t]);
    Group(t, ClockCount(cfg), RateCount(cfg));
    RowsSize(cfg, timings[t], n);
    Sum(Product(t, ClockCount(cfg)), n, RateCount(cfg));
    RowsPrefix(cfg, timings[t], n);
  }

  lemma {:induction false} TablePrefix(cfg: Config, timings: seq<Mode>, t: nat)
    requires cfg.Ok() && t <= |timings|
    ensures |Table(cfg, timings[..t])| <= |Table(cfg, timings)|
    ensures Table(cfg, timings)[..|Table(cfg, timings[..t])|] == Table(cfg, timings[..t])
    decreases |timings| - t
  {
    hide Table, Product;
    if t == |timings| {
      assert timings[..t] == timings;
    } else {
      TablePrefix(cfg, timings, t + 1);
      TableStep(cfg, timings, t, 0);
      var all, k, k' := Table(cfg, timings), |Table(cfg, timings[..t])|, |Table(cfg, timings[..t + 1])|;
      RowsNone(cfg, timings[t]);
      assert Table(cfg, timings[..t]) + Rows(cfg, timings[t], 0) == Table(cfg, timings[..t]);
      assert all[..k] == all[..k'][..k];
    }
  }

  /** The mode count is never more than the table needs, and as much exactly when it is snug. */
  lemma {:induction false} SnugIff(cfg: Config, kinds: seq<bool>)
    requires cfg.Ok()
    ensures ModeCount(cfg, kinds) <= Product(|kinds|, Product(ClockCount(cfg), RateCount(cfg)))
    ensures ModeCount(cfg, kinds) == Product(|kinds|, Product(ClockCount(cfg), RateCount(cfg))) <==> Snug(cfg, kinds)
  {
    hide Product;
    var n, a, c, f := |kinds|, CmdCount(kinds), ClockCount(cfg), RateCount(cfg);
    Sum(a, n - a, Product(c, f));
    Group(a, c, f);
    Group(n, c, f);
    Times(Product(a, c), f);
    if ModeCount(cfg, kinds) >= Product(n, Product(c, f)) {
      WholeCount(a, n - a, c, f);
    }
    if a == 0 {
      Zero(c);
      Zero(Product(c, f));
    }
  }

  /** The mode count of the timings that are used keeps filling in the array exactly if there
      is no command timing, or only one refresh rate, or a single command timing and a number
      of bit clocks that is a multiple of the number of refresh rates. */
  lemma {:induction false} FitsIff(cfg: Config, kinds: seq<bool>)
    requires cfg.Ok()
    ensures Fits(cfg, |kinds|, ModeCount(cfg, kinds)) <==>
            Snug(cfg, kinds) || (CmdCount(kinds) == 1 && Rem(ClockCount(cfg), RateCount(cfg)) == 0)
  {
    hide Product, Rem, Fits, ModeCount;
    if Snug(cfg, kinds) || (CmdCount(kinds) == 1 && Rem(ClockCount(cfg), RateCount(cfg)) == 0) {
      FitsWhen(cfg, kinds);
    } else if Fits(cfg, |kinds|, ModeCount(cfg, kinds)) {
      OnlyFitsWhen(cfg, kinds);
    }
  }

  lemma {:induction false} FitsWhen(cfg: Config, kinds: seq<bool>)
    requires cfg.Ok()
    requires Snug(cfg, kinds) || (CmdCount(kinds) == 1 && Rem(ClockCount(cfg), RateCount(cfg)) == 0)
    ensures Fits(cfg, |kinds|, ModeCount(cfg, kinds))
  {
    hide Product, Quot, Rem;
    if kinds != [] {
      var a, f := CmdCount(kinds), RateCount(cfg);
      var k := FitCount(a, |kinds| - a, ClockCount(cfg), f);
      MultipleIff(ModeCount(cfg, kinds), k, f);
    }
  }

  lemma {:induction false} OnlyFitsWhen(cfg: Config, kinds: seq<bool>)
    requires cfg.Ok() && Fits(cfg, |kinds|, ModeCount(cfg, kinds))
    ensures Snug(cfg, kinds) || (CmdCount(kinds) == 1 && Rem(ClockCount(cfg), RateCount(cfg)) == 0)
  {
    Counts(cfg);
    hide Product, Quot, Rem, ClockCount, RateCount, CmdCount;
    var n, a, c, f := |kinds|, CmdCount(kinds), ClockCount(cfg), RateCount(cfg);
    var size := ModeCount(cfg, kinds);
    assert a + (n - a) == n;
    if n > 0 && Product(Product(n, c), f) <= size {
      WholeCount(a, n - a, c, f);
    } else if n > 0 {
      WholeRows(a, n - a, c, f, size);
    }
  }

  lemma Counts(cfg: Config)
    requires cfg.Ok()
    ensures ClockCount(cfg) >= 1 && RateCount(cfg) >= 1
  {
  }

  lemma WholeRows(a: nat, v: nat, c: nat, f: nat, size: nat)
    requires c >= 1 && f >= 1 && a + v >= 1 && size == Product(a, c) + Product(v, Product(c, f)) && Rem(size, f) == 0
    requires Product(Product(a + v - 1, c), f) + f <= size < Product(Product(a + v, c), f)
    ensures a == 1 && Rem(c, f) == 0
  {
    hide Product, Quot, Rem;
    var k := Quot(size, f);
    Euclid(size, f);
    Between(Product(a + v - 1, c), k, Product(a + v, c), f);
    PartCount(a, v, c, f, k);
  }

  lemma MultipleIff(size: nat, k: nat, f: nat)
    requires f > 0 && size == Product(k, f)
    ensures Rem(size, f) == 0
  {
    hide Product, Quot, Rem;
    QuotIs(size, f, k);
    Euclid(size, f);
  }

  lemma Between(lo: nat, k: nat, hi: nat, f: nat)
    requires f > 0 && Product(lo, f) + f <= Product(k, f) < Product(hi, f)
    ensures lo < k < hi
  {
    hide Product;
    if k <= lo {
      Monotone(k, lo, f);
    }
    if hi <= k {
      Monotone(hi, k, f);
    }
  }

  /** A panel with a single mode and a video timing among its nodes has room to spare. */
  lemma {:induction false} SingleFits(cfg: Config, kinds: seq<bool>)
    requires cfg.Ok() && CmdCount(kinds) < |kinds|
    ensures Fits(cfg, 1, ModeCount(cfg, kinds)) && Product(ClockCount(cfg), RateCount(cfg)) <= ModeCount(cfg, kinds)
  {
    hide Product, Rem;
    var c, f := ClockCount(cfg), RateCount(cfg);
    Monotone(1, |kinds| - CmdCount(kinds), Product(c, f));
    One(Product(c, f));
    One(c);
  }

  /** There is no room for the first row of a further timing. */
  lemma Starved(cfg: Config, n: nat, t: nat, size: nat)
    requires cfg.Ok() && t < n && size < Product(Product(t, ClockCount(cfg)), RateCount(cfg)) + RateCount(cfg)
    ensures !Fits(cfg, n, size)
  {
    hide Product, Rem;
    var c, f := ClockCount(cfg), RateCount(cfg);
    Monotone(t, n - 1, c);
    Monotone(Product(t, c), Product(n - 1, c), f);
    Sum(n - 1, 1, c);
    One(c);
    Sum(Product(n - 1, c), c, f);
    Monotone(1, c, f);
    One(f);
  }

  /** The array ends inside a row. */
  lemma Torn(cfg: Config, n: nat, k: nat, size: nat)
    requires cfg.Ok() && k < Product(n, ClockCount(cfg))
    requires Product(k, RateCount(cfg)) < size < Product(k, RateCount(cfg)) + RateCount(cfg)
    ensures !Fits(cfg, n, size)
  {
    hide Product, Quot, Rem;
    var f := RateCount(cfg);
    Monotone(k + 1, Product(n, ClockCount(cfg)), f);
    Sum(k, 1, f);
    One(f);
    Zero(ClockCount(cfg));
    Euclid(size, f);
    QuotIs(size, f, k);
  }

  /** The array is full and rows of the last timing are left over. */
  lemma Short(cfg: Config, n: nat, k: nat, size: nat)
    requires cfg.Ok() && n > 0 && size == Product(k, RateCount(cfg)) && Product(n - 1, ClockCount(cfg)) < k
    ensures Fits(cfg, n, size)
  {
    hide Product, Rem;
    var f := RateCount(cfg);
    MultipleIff(size, k, f);
    Monotone(Product(n - 1, ClockCount(cfg)) + 1, k, f);
    Sum(Product(n - 1, ClockCount(cfg)), 1, f);
    One(f);
  }

  /** The beginning of a table, as far as there is room. */
  function Start(s: seq<Mode>, size: nat): seq<Mode> {
    if size <= |s| then s[..size] else s
  }

  /** dsi_display_get_modes.  It stays in the array exactly if the table fits; what it writes
      then is the beginning of the table. */
  method GetModes(cfg: Config, kinds: seq<bool>, single: bool, timings: seq<Mode>)
    returns (ok: bool, modes: array<Mode>)
    requires cfg.Ok() && |timings| == if single then 1 else |kinds|
    ensures fresh(modes) && modes.Length == ModeCount(cfg, kinds)
    ensures ok <==> Fits(cfg, |timings|, modes.Length)
    ensures ok ==> Start(Table(cfg, timings), modes.Length) <= modes[..]
  {
    hide Rows, Row, SubMode, Slot, Widened, Product, Table, Fits, ModeCount;
    Zero(ClockCount(cfg));
    Zero(RateCount(cfg));
    var count, used := GetModeCount(cfg, kinds, single);
    modes := new Mode[count];
    var arrayIdx, t := 0, 0;
    ghost var k: nat := 0;
    while t < used
      invariant 0 <= t <= used == |timings| && arrayIdx == Product(k, RateCount(cfg)) <= modes.Length
      invariant arrayIdx <= |Table(cfg, timings)| && modes[..arrayIdx] == Table(cfg, timings)[..arrayIdx]
      invariant k <= Product(t, ClockCount(cfg))
      invariant k < Product(t, ClockCount(cfg)) ==>
        t > 0 && Product(t - 1, ClockCount(cfg)) < k && arrayIdx == modes.Length
    {
      Monotone(k, Product(t, ClockCount(cfg)), RateCount(cfg));
      ok := FillRates(cfg, Widened(cfg, timings[t]), modes, arrayIdx);
      if !ok {
        Starved(cfg, |timings|, t, modes.Length);
        return;
      }
      ghost var n;
      ok, arrayIdx, n := PopulateBitClks(cfg, modes, arrayIdx, timings[t]);
      k := NextRows(cfg, timings, t, n);
      if !ok {
        Monotone(t + 1, |timings|, ClockCount(cfg));
        Torn(cfg, |timings|, k, modes.Length);
        return;
      }
      t := t + 1;
    }
    ok := true;
    TableSize(cfg, timings);
    Group(|timings|, ClockCount(cfg), RateCount(cfg));
    if k < Product(t, ClockCount(cfg)) {
      Short(cfg, |timings|, k, modes.Length);
    } else {
      AllFits(cfg, |timings|, modes.Length);
      assert Table(cfg, timings)[..arrayIdx] == Table(cfg, timings);
    }
  }

  lemma AllFits(cfg: Config, n: nat, size: nat)
    requires cfg.Ok() && Product(Product(n, ClockCount(cfg)), RateCount(cfg)) <= size
    ensures Fits(cfg, n, size)
  {
    hide Product, Rem;
  }

  /** The rows written once n more have been. */
  lemma NextRows(cfg: Config, timings: seq<Mode>, t: nat, n: nat) returns (k: nat)
    requires cfg.Ok() && t < |timings| && 0 < n <= ClockCount(cfg)
    ensures k == Product(t, ClockCount(cfg)) + n <= Product(t + 1, ClockCount(cfg))
    ensures k < Product(t + 1, ClockCount(cfg)) <==> n < ClockCount(cfg)
    ensures |Table(cfg, timings[..t])| == Product(Product(t, ClockCount(cfg)), RateCount(cfg))
    ensures |Table(cfg, timings[..t]) + Rows(cfg, timings[t], n)| == Product(k, RateCount(cfg)) <= |Table(cfg, timings)|
    ensures Table(cfg, timings)[..Product(k, RateCount(cfg))] == Table(cfg, timings[..t]) + Rows(cfg, timings[t], n)
    ensures Table(cfg, timings)[..|Table(cfg, timings[..t])|] == Table(cfg, timings[..t])
  {
    hide Rows, Product, Table;
    k := Product(t, ClockCount(cfg)) + n;
    Sum(t, 1, ClockCount(cfg));
    One(ClockCount(cfg));
    TableStep(cfg, timings, t, n);
    TablePrefix(cfg, timings, t);
    TablePrefix(cfg, timings, t + 1);
    var all, next := Table(cfg, timings), Table(cfg, timings[..t + 1]);
    assert all[..Product(k, RateCount(cfg))] == all[..|next|][..Product(k, RateCount(cfg))];
  }

  /** A command timing at two refresh rates: one mode is allocated for a table of two. */
  lemma CommandTimingOverruns(cfg: Config, m: Mode)
    requires cfg.Ok() && cfg.dfps != NO_DFPS && |cfg.rates| == 2 && !cfg.dynClk
    ensures ModeCount(cfg, [true]) == 1 && |Table(cfg, [m])| == 2 && !Fits(cfg, 1, 1)
  {
    hide Table, Row, Rows;
    assert [true][..0] == [];
    TableSize(cfg, [m]);
  }

  /** With two bit clocks as well nothing is written outside, but half of the table is missing. */
  lemma CommandTimingFits(cfg: Config, m: Mode)
    requires cfg.Ok() && cfg.dfps != NO_DFPS && |cfg.rates| == 2 && cfg.dynClk && |cfg.bitClks| == 2
    ensures ModeCount(cfg, [true]) == 2 && |Table(cfg, [m])| == 4 && Fits(cfg, 1, 2)
  {
    hide Table, Row, Rows;
    assert [true][..0] == [];
    TableSize(cfg, [m]);
  }
}
