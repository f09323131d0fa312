// Clock rates and front porches: integer arithmetic whose rounding matters.

module Rates {
  import opened Arith

  // ---------------------------------------------------------------------
  // Link clock rates
  // ---------------------------------------------------------------------

  /** Bits per pixel of the destination formats. */
  predicate IsBpp(b: nat) {
    b == 3 || b == 8 || b == 12 || b == 16 || b == 18 || b == 24
  }

  predicate IsLanes(n: nat) {
    1 <= n <= 4
  }

  /** do_div. */
  function DoDiv(x: nat, y: nat): nat
    requires y > 0
  {
    x / y
  }

  /** The bits per second of n lanes. */
  function AllLanes(f: nat, n: nat): nat {
    f * n
  }

  lemma PerLane(f: nat, n: nat)
    requires IsLanes(n)
    ensures DoDiv(AllLanes(f, n), n) == f
  {
    if n == 1 {
    } else if n == 2 {
    } else if n == 3 {
    } else {
      assert n == 4;
    }
  }

  lemma Symbols(x: nat)
    ensures (x * 16 / 7) / 16 == x / 7
  {
  }

  lemma PerLaneSymbols(f: nat, n: nat)
    requires IsLanes(n)
    ensures DoDiv(AllLanes(f, n) / 7 * 7, n) / 7 == f / 7
  {
    if n == 1 {
      OneLane(f);
    } else if n == 2 {
      TwoLanes(f);
    } else if n == 3 {
      ThreeLanes(f);
    } else {
      FourLanes(f);
    }
  }

  lemma OneLane(f: nat)
    ensures DoDiv(AllLanes(f, 1) / 7 * 7, 1) / 7 == f / 7
  {
  }

  lemma TwoLanes(f: nat)
    ensures DoDiv(AllLanes(f, 2) / 7 * 7, 2) / 7 == f / 7
  {
    var q, t := f / 7, 2 * (f % 7) / 7;
    assert AllLanes(f, 2) == 14 * q + 2 * (f % 7);
    assert AllLanes(f, 2) / 7 == 2 * q + t;
    assert (2 * q + t) * 7 / 2 == 7 * q + 7 * t / 2;
  }

  lemma ThreeLanes(f: nat)
    ensures DoDiv(AllLanes(f, 3) / 7 * 7, 3) / 7 == f / 7
  {
    var q, t := f / 7, 3 * (f % 7) / 7;
    assert AllLanes(f, 3) == 21 * q + 3 * (f % 7);
    assert AllLanes(f, 3) / 7 == 3 * q + t;
    assert (3 * q + t) * 7 / 3 == 7 * q + 7 * t / 3;
  }

  lemma FourLanes(f: nat)
    ensures DoDiv(AllLanes(f, 4) / 7 * 7, 4) / 7 == f / 7
  {
    var q, t := f / 7, 4 * (f % 7) / 7;
    assert AllLanes(f, 4) == 28 * q + 4 * (f % 7);
    assert AllLanes(f, 4) / 7 == 4 * q + t;
    assert (4 * q + t) * 7 / 4 == 7 * q + 7 * t / 4;
  }

  lemma PixelsOnly(pixels: nat, bpp: nat)
    requires IsBpp(bpp)
    ensures DoDiv(AllLanes(pixels, bpp), bpp) == pixels
  {
    if bpp == 3 {
    } else if bpp == 8 {
    } else if bpp == 12 {
    } else if bpp == 16 {
    } else if bpp == 18 {
    } else {
      assert bpp == 24;
    }
  }

  /** byteClk is the largest rate at which n lanes, taking 8 bits (16 on C-PHY) at a time,
      carry no more than x bits per second. */
  predicate Carries(byteClk: nat, n: nat, cphy: bool, x: nat) {
    var word := if cphy then 16 else 8;
    word * AllLanes(byteClk, n) <= x < word * AllLanes(byteClk + 1, n)
  }

  lemma CarriedBits(x: nat, n: nat)
    requires IsLanes(n)
    ensures Carries(DoDiv(x, n) / 8, n, false, x)
  {
    if n == 1 {
    } else if n == 2 {
    } else if n == 3 {
    } else {
      assert n == 4;
    }
  }

  lemma CarriedSymbols(x: nat, n: nat)
    requires IsLanes(n)
    ensures Carries(DoDiv(x / 16 * 7, n) / 7, n, true, x)
  {
    var s := x / 16;
    if n == 1 {
      assert s * 7 / 7 == s;
    } else if n == 2 {
      assert s * 7 / 2 / 7 == s / 2;
    } else if n == 3 {
      assert s * 7 / 3 / 7 == s / 3;
    } else {
      assert s * 7 / 4 / 7 == s / 4;
    }
  }

  /** dsi_ctrl_update_link_freqs with n lanes (those of one sublink under split link): from a
      bit clock override f, or, without one, from the pixels per second of the mode. */
  method LinkRates(f: nat, pixels: nat, n: nat, bpp: nat, cphy: bool)
    returns (byteClk: nat, byteIntfClk: nat, pclk: nat, bitClk: nat)
    requires IsLanes(n) && IsBpp(bpp)
    ensures byteIntfClk == (if cphy then byteClk else byteClk / 2) && bitClk == byteClk * (if cphy then 7 else 8)
    ensures f > 0 && AllLanes(f, n) * (if cphy then 16 else 1) < 0x1_0000_0000_0000_0000 ==>
      byteClk == (if cphy then f / 7 else f / 8) &&
      pclk == DoDiv(if cphy then 16 * AllLanes(f, n) / 7 else AllLanes(f, n), bpp)
    ensures f == 0 && AllLanes(pixels, bpp) < 0x1_0000_0000_0000_0000 ==>
      pclk == pixels && Carries(byteClk, n, cphy, AllLanes(pixels, bpp))
  {
    hide DoDiv, AllLanes, Carries, U64;
    PerLane(f, n);
    PerLaneSymbols(f, n);
    PixelsOnly(pixels, bpp);
    var bitRate;
    if AllLanes(pixels, bpp) < 0x1_0000_0000_0000_0000 {
      Fits64(AllLanes(pixels, bpp));
    }
    if AllLanes(f, n) * (if cphy then 16 else 1) < 0x1_0000_0000_0000_0000 {
      Fits64(AllLanes(f, n));
      Fits64(AllLanes(f, n) * if cphy then 16 else 1);
    }
    if f == 0 {
      bitRate := U64(AllLanes(pixels, bpp));
      CarriedBits(bitRate, n);
      CarriedSymbols(bitRate, n);
    } else {
      bitRate := U64(AllLanes(f, n));
      Symbols(bitRate);
      if cphy {
        bitRate := U64(bitRate * 16);
        bitRate := bitRate / 7;
      }
    }
    pclk := DoDiv(bitRate, bpp);
    if !cphy {
      byteClk := DoDiv(bitRate, n);
      byteClk := byteClk / 8;
      byteIntfClk := byteClk / 2;
      bitClk := byteClk * 8;
    } else {
      bitRate := bitRate / 16;
      bitRate := bitRate * 7;
      byteClk := DoDiv(bitRate, n);
      byteClk := byteClk / 7;
      byteIntfClk := byteClk;
      bitClk := byteClk * 7;
    }
  }

  /** One controller's turn in dsi_display_update_dsi_bitrate. */
  method DynamicRates(f: nat, n: nat, bpp: nat, cphy: bool)
    returns (rc: int, byteClk: nat, byteIntfClk: nat, pclk: nat, bitClk: nat)
    requires f < 0x1_0000_0000 && n <= 4 && IsBpp(bpp)
    ensures rc == if f == 0 || n == 0 then -22 else 0
    ensures rc == 0 ==>
      byteClk == (if cphy then f / 7 else f / 8) && byteIntfClk == (if cphy then byteClk else byteClk / 2) &&
      pclk == (if cphy then 16 * DoDiv(AllLanes(f, n), bpp) / 7 else DoDiv(AllLanes(f, n), bpp)) && bitClk == f
  {
    byteClk, byteIntfClk, pclk, bitClk := 0, 0, 0, 0;
    if f == 0 || n == 0 {
      return -22, 0, 0, 0, 0;
    }
    hide DoDiv, AllLanes;
    PerLane(f, n);
    rc := 0;
    var bitRate := AllLanes(f, n);
    pclk := DoDiv(bitRate, bpp);
    if !cphy {
      byteClk := DoDiv(bitRate, n);
      byteClk := byteClk / 8;
      byteIntfClk := byteClk / 2;
    } else {
      pclk := pclk * 16;
      pclk := pclk / 7;
      byteClk := f / 7;
      byteIntfClk := byteClk;
    }
    bitClk := f;
  }

  /** The pixel clocks of the two on C-PHY, for the bits per second x of all lanes. */
  lemma PixelClocksClose(x: nat, bpp: nat)
    requires IsBpp(bpp)
    ensures 16 * DoDiv(x, bpp) / 7 <= DoDiv(16 * x / 7, bpp) <= 16 * DoDiv(x, bpp) / 7 + 3
  {
    if bpp == 3 {
    } else if bpp == 8 {
    } else if bpp == 12 {
    } else if bpp == 16 {
    } else if bpp == 18 {
    } else {
      assert bpp == 24;
    }
  }

  /** No smaller bound will do. */
  lemma ThreeHertzApart()
    ensures DoDiv(16 * AllLanes(95, 1) / 7, 24) == 16 * DoDiv(AllLanes(95, 1), 24) / 7 + 3
  {
  }

  /** The bits of all lanes, for a 32-bit bit clock. */
  lemma LanesFit(f: nat, n: nat)
    requires f < 0x1_0000_0000 && IsLanes(n)
    ensures AllLanes(f, n) * 16 < 0x1_0000_0000_0000_0000
  {
    if n == 1 {
    } else if n == 2 {
    } else if n == 3 {
    } else {
      assert n == 4;
    }
  }

  /** The two computations side by side. */
  method BothRates(f: nat, n: nat, bpp: nat, cphy: bool)
    returns (byte0: nat, intf0: nat, pclk0: nat, bit0: nat, byte1: nat, intf1: nat, pclk1: nat, bit1: nat)
    requires 0 < f < 0x1_0000_0000 && IsLanes(n) && IsBpp(bpp)
    ensures byte0 == byte1 && intf0 == intf1
    ensures !cphy ==> pclk0 == pclk1
    ensures cphy ==> pclk1 <= pclk0 <= pclk1 + 3
    ensures bit0 == bit1 <==> f % (if cphy then 7 else 8) == 0
  {
    LanesFit(f, n);
    hide DoDiv, AllLanes;
    byte0, intf0, pclk0, bit0 := LinkRates(f, 0, n, bpp, cphy);
    var rc;
    rc, byte1, intf1, pclk1, bit1 := DynamicRates(f, n, bpp, cphy);
    PixelClocksClose(AllLanes(f, n), bpp);
  }

  // ---------------------------------------------------------------------
  // Front porch
  // ---------------------------------------------------------------------

  /** mult_frac(x, n, d): x * n / d without the full product. */
  function MultFrac(x: nat, n: nat, d: nat): nat
    requires d > 0
  {
    Product(Quot(x, d), n) + Quot(Product(Rem(x, d), n), d)
  }

  lemma MultFracExact(x: nat, n: nat, d: nat)
    requires d > 0
    ensures MultFrac(x, n, d) == Quot(Product(x, n), d)
    ensures Product(MultFrac(x, n, d), d) <= Product(x, n) < Product(MultFrac(x, n, d), d) + d
  {
    hide Product, Quot, Rem;
    var q, r := Quot(x, d), Rem(x, d);
    var e := Quot(Product(r, n), d);
    Euclid(x, d);
    Euclid(Product(r, n), d);
    Sum(Product(q, d), r, n);
    Sum(Product(q, n), e, d);
    Swap(q, n, d);
    QuotIs(Product(x, n), d, Product(q, n) + e);
  }

  /** mult_frac on 32-bit values, stored in an int. */
  function WrappingFrac(x: nat, n: nat, d: nat): int
    requires d > 0
  {
    S32(U32(U32(Product(Quot(x, d), n)) + Quot(U32(Product(Rem(x, d), n)), d)))
  }

  lemma WrapsNot(x: nat, n: nat, d: nat)
    requires d > 0 && Product(x, n) < 0x8000_0000
    ensures WrappingFrac(x, n, d) == MultFrac(x, n, d) <= Product(x, n)
  {
    hide Product, Quot, Rem, U32, S32;
    var q, r := Quot(x, d), Rem(x, d);
    var a, b := Product(q, n), Product(r, n);
    Euclid(x, d);
    AtLeast(q, d);
    Sum(q, r, n);
    Monotone(q + r, x, n);
    Euclid(b, d);
    AtLeast(Quot(b, d), d);
    Small(a);
    Small(b);
    Small(a + Quot(b, d));
  }

  function Distance(a: nat, b: nat): nat {
    if a > b then a - b else b - a
  }

  /** The products of the computation fit in 31 bits. */
  predicate NoOverflow(oldFps: nat, newFps: nat, bTotal: nat, bFp: nat) {
    bFp + Product(bTotal, Distance(oldFps, newFps)) < 0x8000_0000
  }

  /** The new front porch, or -1. */
  function FrontPorch(oldFps: nat, newFps: nat, aTotal: nat, bTotal: nat, bFp: nat): (fp: int)
    ensures fp >= -1
  {
    if aTotal == 0 || newFps == 0 then -1
    else
      var add := WrappingFrac(bTotal, Distance(oldFps, newFps), newFps);
      var fp := S32(if oldFps > newFps then bFp + add else bFp - add);
      if fp < 0 then -1 else fp
  }

  /** dsi_display_dfps_calc_front_porch. */
  method CalcFrontPorch(oldFps: nat, newFps: nat, aTotal: nat, bTotal: nat, bFp: nat) returns (rc: int, out: nat)
    ensures rc == 0 || rc == -22
    ensures aTotal == 0 || newFps == 0 ==> rc == -22
    ensures var fp := FrontPorch(oldFps, newFps, aTotal, bTotal, bFp);
            if fp < 0 then rc == -22 else rc == 0 && out == fp
    ensures aTotal > 0 && newFps > 0 && NoOverflow(oldFps, newFps, bTotal, bFp) ==>
      var add := MultFrac(bTotal, Distance(oldFps, newFps), newFps);
      if oldFps > newFps then rc == 0 && out == bFp + add
      else if bFp < add then rc == -22 else rc == 0 && out == bFp - add
  {
    hide MultFrac, WrappingFrac, Product, S32, U32;
    out := 0;
    if aTotal == 0 || newFps == 0 {
      return -22, 0;
    }
    var diff := Distance(oldFps, newFps);
    var add := WrappingFrac(bTotal, diff, newFps);
    var fp := S32(if oldFps > newFps then bFp + add else bFp - add);
    if NoOverflow(oldFps, newFps, bTotal, bFp) {
      WrapsNot(bTotal, diff, newFps);
      Small(if oldFps > newFps then bFp + add else bFp - add);
    }
    if fp < 0 {
      return -22, 0;
    }
    rc, out := 0, fp;
  }

  /** Keeping all else, the line (or pixel) total the new porch gives. */
  function NewTotal(bTotal: nat, bFp: nat, out: nat): int {
    bTotal + out - bFp
  }

  /** The new total keeps the clock: times the new rate it is the old total times the old
      rate, to within one new rate; it is the floor of the exact total when the rate drops
      and the ceiling when it rises. */
  lemma PorchKeepsClock(oldFps: nat, newFps: nat, bTotal: nat, bFp: nat, out: nat)
    requires newFps > 0 && bFp <= bTotal
    requires var add := MultFrac(bTotal, Distance(oldFps, newFps), newFps);
             out == (if oldFps > newFps then bFp + add else bFp - add)
    ensures var t := NewTotal(bTotal, bFp, out);
            t >= 0 &&
            if oldFps > newFps then
              t == Quot(Product(bTotal, oldFps), newFps) &&
              Product(t, newFps) <= Product(bTotal, oldFps) < Product(t, newFps) + newFps
            else
              t == Quot(Product(bTotal, oldFps) + (newFps - 1), newFps) &&
              Product(bTotal, oldFps) <= Product(t, newFps) < Product(bTotal, oldFps) + newFps
  {
    hide Product, Quot, Rem, MultFrac;
    var d := Distance(oldFps, newFps);
    var add := MultFrac(bTotal, d, newFps);
    MultFracExact(bTotal, d, newFps);
    var t := NewTotal(bTotal, bFp, out);
    if oldFps > newFps {
      Sum(newFps, d, bTotal);
      Sum(bTotal, add, newFps);
      QuotIs(Product(bTotal, oldFps), newFps, t);
    } else {
      Sum(oldFps, d, bTotal);
      Sum(t, add, newFps);
      QuotIs(Product(bTotal, oldFps) + (newFps - 1), newFps, t);
    }
  }

  /** The total that keeps the clock at another rate: the old total times the old rate, divided
      by the new one, rounded down when the rate drops and up when it rises. */
  function Wanted(oldFps: nat, newFps: nat, bTotal: nat): nat
    requires newFps > 0
  {
    if oldFps > newFps then Quot(Product(bTotal, oldFps), newFps)
    else Quot(Product(bTotal, oldFps) + (newFps - 1), newFps)
  }

  lemma WantedIs(oldFps: nat, newFps: nat, bTotal: nat)
    requires newFps > 0
    ensures var t := Wanted(oldFps, newFps, bTotal);
            if oldFps > newFps then t * newFps <= bTotal * oldFps < t * newFps + newFps
            else bTotal * oldFps <= t * newFps < bTotal * oldFps + newFps
  {
    Euclid(Product(bTotal, oldFps), newFps);
    Euclid(Product(bTotal, oldFps) + (newFps - 1), newFps);
  }

  /** The new porch is what the rest of the total leaves of the wanted one; where it leaves
      nothing, the porch is refused. */
  lemma FrontPorchIs(oldFps: nat, newFps: nat, aTotal: nat, bTotal: nat, bFp: nat)
    requires aTotal > 0 && newFps > 0 && bFp <= bTotal && NoOverflow(oldFps, newFps, bTotal, bFp)
    ensures var t, rest := Wanted(oldFps, newFps, bTotal), bTotal - bFp;
            FrontPorch(oldFps, newFps, aTotal, bTotal, bFp) == if t >= rest then t - rest else -1
  {
    hide MultFrac, WrappingFrac, Product, Quot, S32, U32;
    var diff := Distance(oldFps, newFps);
    var add := MultFrac(bTotal, diff, newFps);
    WrapsNot(bTotal, diff, newFps);
    Small(if oldFps > newFps then bFp + add else bFp - add);
    if oldFps > newFps {
      PorchKeepsClock(oldFps, newFps, bTotal, bTotal, bTotal + add);
    } else {
      NotMore(bTotal, diff, newFps);
      PorchKeepsClock(oldFps, newFps, bTotal, bTotal, bTotal - add);
    }
  }

  lemma NotMore(x: nat, n: nat, d: nat)
    requires d > 0 && n <= d
    ensures MultFrac(x, n, d) <= x
  {
    hide MultFrac, Product;
    MultFracExact(x, n, d);
    Monotone(n, d, x);
    if MultFrac(x, n, d) > x {
      Monotone(x + 1, MultFrac(x, n, d), d);
      Sum(x, 1, d);
      One(d);
      Turn(n, x);
      Turn(d, x);
    }
  }
}
