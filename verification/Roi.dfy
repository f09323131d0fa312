// A region of interest is split over the controllers of a panel, which drive bands of
// it side by side.

module Roi {
  import opened Arith

  /** A rectangle with 16-bit fields. */
  datatype Rect = Rect(x: nat, y: nat, w: nat, h: nat) {
    predicate Ok() {
      x < 0x1_0000 && y < 0x1_0000 && w < 0x1_0000 && h < 0x1_0000
    }
  }

  /** A requested rectangle: its left, top, right and bottom edges, 16 bits each. */
  datatype Clip = Clip(x1: nat, y1: nat, x2: nat, y2: nat) {
    predicate Ok() {
      x1 < 0x1_0000 && y1 < 0x1_0000 && x2 < 0x1_0000 && y2 < 0x1_0000
    }
  }

  function U16(x: int): nat {
    x % 0x1_0000
  }

  predicate Inside(r: Rect, px: int, py: int) {
    r.x <= px < r.x + r.w && r.y <= py < r.y + r.h
  }

  function Max(a: int, b: int): int { if a > b then a else b }
  function Min(a: int, b: int): int { if a < b then a else b }

  /** dsi_rect_intersect. */
  method RectIntersect(r1: Rect, r2: Rect) returns (result: Rect)
    requires r1.Ok() && r2.Ok()
    ensures result == Common(r1, r2) && result.Ok()
    ensures forall px, py :: Inside(result, px, py) <==> Inside(r1, px, py) && Inside(r2, px, py)
    ensures (forall px, py :: !(Inside(r1, px, py) && Inside(r2, px, py))) ==> result == Rect(0, 0, 0, 0)
  {
    var l := if r1.x > r2.x then r1.x else r2.x;
    var t := if r1.y > r2.y then r1.y else r2.y;
    var r := if r1.x + r1.w < r2.x + r2.w then r1.x + r1.w else r2.x + r2.w;
    var b := if r1.y + r1.h < r2.y + r2.h then r1.y + r1.h else r2.y + r2.h;
    if r <= l || b <= t {
      result := Rect(0, 0, 0, 0);
    } else {
      result := Rect(U16(l), U16(t), U16(r - l), U16(b - t));
    }
    CommonPixels(r1, r2);
  }

  lemma CommonPixels(a: Rect, b: Rect)
    ensures forall px, py :: Inside(Common(a, b), px, py) <==> Inside(a, px, py) && Inside(b, px, py)
    ensures (forall px, py :: !(Inside(a, px, py) && Inside(b, px, py))) ==> Common(a, b) == Rect(0, 0, 0, 0)
  {
    var c := Common(a, b);
    if c != Rect(0, 0, 0, 0) {
      assert Inside(a, c.x, c.y) && Inside(b, c.x, c.y);
    }
  }

  /** The common part of two rectangles; the empty one is at the origin. */
  function Common(a: Rect, b: Rect): Rect {
    var w := Min(a.x + a.w, b.x + b.w) - Max(a.x, b.x);
    var h := Min(a.y + a.h, b.y + b.h) - Max(a.y, b.y);
    if w <= 0 || h <= 0 then Rect(0, 0, 0, 0) else Rect(Max(a.x, b.x), Max(a.y, b.y), w, h)
  }

  /** The request as the driver stores it: the extents are taken modulo 65536. */
  function Stored(c: Clip): Rect {
    Rect(c.x1, c.y1, U16(c.x2 - c.x1), U16(c.y2 - c.y1))
  }

  predicate Requested(c: Clip, px: int, py: int) {
    c.x1 <= px < c.x2 && c.y1 <= py < c.y2
  }

  /** The edges are in order, or one of the sides is empty. */
  predicate WellFormed(c: Clip) {
    (c.x1 <= c.x2 && c.y1 <= c.y2) || c.x1 == c.x2 || c.y1 == c.y2
  }

  /** Exactly then is the stored request the request. */
  lemma StoredIff(c: Clip)
    requires c.Ok()
    ensures (forall px, py :: Inside(Stored(c), px, py) <==> Requested(c, px, py)) <==> WellFormed(c)
  {
    if c.x1 != c.x2 && c.y1 != c.y2 && !(c.x1 <= c.x2 && c.y1 <= c.y2) {
      assert Inside(Stored(c), c.x1, c.y1) && !Requested(c, c.x1, c.y1);
    }
  }

  /** The panel: n controllers, each driving a band of width pixels and height lines. */
  datatype Panel = Panel(n: nat, width: nat, height: nat) {
    /** Origins and extents fit in 16 bits. */
    predicate Ok() {
      width < 0x1_0000 && height < 0x1_0000 && (n > 0 ==> Product(n - 1, width) < 0x1_0000)
    }

    /** The mode bounds of controller i. */
    function Bounds(i: nat): Rect {
      Rect(U16(Product(i, width)), 0, U16(width), U16(height))
    }

    lemma BoundsAre(i: nat)
      requires Ok() && i < n
      ensures Bounds(i) == Rect(Product(i, width), 0, width, height) && Product(i, width) < 0x1_0000
    {
      hide Product;
      Monotone(i, n - 1, width);
    }
  }

  /** dsi_display_calc_ctrl_roi; `out` is both an input and an output, since a refused
      request still moves its origin. */
  method CalcCtrlRoi(bounds: Rect, maxRois: nat, rois: seq<Clip>, out: Rect) returns (rc: int, out': Rect)
    requires bounds.Ok() && forall i :: 0 <= i < |rois| ==> rois[i].Ok()
    ensures rc == if |rois| > maxRois then -22 else 0
    ensures rc == 0 ==> out' == Region(bounds, rois)
    ensures rc != 0 ==> out' == out.(x := U16(out.x - bounds.x))
    ensures rc == 0 && rois == [] ==> out' == Rect(0, bounds.y, bounds.w, bounds.h)
    ensures rc == 0 && rois != [] && (forall px, py :: !(Inside(Stored(rois[0]), px, py) && Inside(bounds, px, py))) ==>
              out' == Rect((0x1_0000 - bounds.x) % 0x1_0000, 0, 0, 0)
  {
    rc, out' := 0, out;
    if |rois| > maxRois {
      rc := -22;
    } else if |rois| == 0 {
      out' := bounds;
    } else {
      out' := RectIntersect(Stored(rois[0]), bounds);
    }
    out' := out'.(x := U16(out'.x - bounds.x));
  }

  /** The region of a controller, relative to its own origin. */
  function Region(bounds: Rect, rois: seq<Clip>): Rect {
    var r := if rois == [] then bounds else Common(Stored(rois[0]), bounds);
    r.(x := U16(r.x - bounds.x))
  }

  /** The common part is what is in both. */
  lemma CommonIsBoth(a: Rect, b: Rect, px: int, py: int)
    ensures Inside(Common(a, b), px, py) <==> Inside(a, px, py) && Inside(b, px, py)
  {
  }

  /** Controller i shows the panel's pixel (px, py). */
  predicate Shows(p: Panel, rois: seq<Clip>, i: nat, px: int, py: int) {
    Inside(Region(p.Bounds(i), rois), px - p.Bounds(i).x, py)
  }

  predicate Wanted(rois: seq<Clip>, px: int, py: int) {
    rois == [] || Inside(Stored(rois[0]), px, py)
  }

  /** Seen from the panel, a controller's region is its band of the request, even where
      its origin has wrapped around. */
  lemma ShowsIff(p: Panel, rois: seq<Clip>, i: nat, px: int, py: int)
    requires p.Ok() && i < p.n && (rois != [] ==> rois[0].Ok())
    ensures Shows(p, rois, i, px, py) <==> Inside(p.Bounds(i), px, py) && Wanted(rois, px, py)
  {
    hide Product;
    p.BoundsAre(i);
    var b := p.Bounds(i);
    if rois != [] {
      var r := Common(Stored(rois[0]), b);
      CommonIsBoth(Stored(rois[0]), b, px, py);
      assert r.w > 0 ==> U16(r.x - b.x) == r.x - b.x;
    }
  }

  /** A pixel is in exactly one band. */
  lemma BandOf(p: Panel, i: nat, px: nat, py: nat)
    requires p.Ok() && i < p.n && p.width > 0 && py < p.height
    ensures Inside(p.Bounds(i), px, py) <==> i == Quot(px, p.width)
  {
    hide Product, Quot, Rem;
    p.BoundsAre(i);
    Euclid(px, p.width);
    if Inside(p.Bounds(i), px, py) {
      QuotIs(px, p.width, i);
    }
  }

  /** Every pixel of the panel in the stored request is shown by exactly one controller, and
      no other pixel is shown by any; which is so of the request as made, when it is well
      formed. */
  lemma ExactlyOne(p: Panel, rois: seq<Clip>, px: nat, py: nat)
    requires p.Ok() && (rois != [] ==> rois[0].Ok())
    requires px < Product(p.n, p.width) && py < p.height
    ensures p.width > 0 && Quot(px, p.width) < p.n
    ensures forall i: nat :: i < p.n ==> (Shows(p, rois, i, px, py) <==> i == Quot(px, p.width) && Wanted(rois, px, py))
    ensures rois != [] && WellFormed(rois[0]) ==> (Wanted(rois, px, py) <==> Requested(rois[0], px, py))
  {
    hide Product, Quot, Rem;
    BandsOnly(p, px);
    forall i: nat | i < p.n
      ensures Shows(p, rois, i, px, py) <==> i == Quot(px, p.width) && Wanted(rois, px, py)
    {
      ShowsIff(p, rois, i, px, py);
      BandOf(p, i, px, py);
    }
    if rois != [] {
      StoredIff(rois[0]);
    }
  }

  lemma BandsOnly(p: Panel, px: nat)
    requires px < Product(p.n, p.width)
    ensures p.width > 0 && Quot(px, p.width) < p.n
  {
    hide Product, Quot, Rem;
    if p.width == 0 {
      Nothing(p.n, p.width);
    }
    Euclid(px, p.width);
    if Quot(px, p.width) >= p.n {
      Monotone(p.n, Quot(px, p.width), p.width);
    }
  }

  /** What is shown is on the panel. */
  lemma NothingElse(p: Panel, rois: seq<Clip>, i: nat, px: int, py: int)
    requires p.Ok() && i < p.n && (rois != [] ==> rois[0].Ok()) && Shows(p, rois, i, px, py)
    ensures 0 <= px < Product(p.n, p.width) && 0 <= py < p.height
  {
    hide Product;
    ShowsIff(p, rois, i, px, py);
    p.BoundsAre(i);
    Monotone(i + 1, p.n, p.width);
    Sum(i, 1, p.width);
    One(p.width);
  }

  // ---------------------------------------------------------------------
  // Areas
  // ---------------------------------------------------------------------

  /** The pixels of the first k regions. */
  function Area(p: Panel, rois: seq<Clip>, k: nat): nat {
    if k == 0 then 0
    else
      var r := Region(p.Bounds(k - 1), rois);
      Area(p, rois, k - 1) + Product(r.w, r.h)
  }

  /** How many of the columns (or lines) [from, from + len) come before `end`. */
  function Before(from: nat, len: nat, end: nat): nat {
    if end <= from then 0 else if end >= from + len then len else end - from
  }

  /** How many come between `lo` and `hi`. */
  function Between(from: nat, len: nat, lo: nat, hi: nat): nat {
    if lo <= hi then Before(from, len, hi) - Before(from, len, lo) else 0
  }

  /** One region's share. */
  lemma RegionArea(p: Panel, c: Clip, i: nat)
    requires p.Ok() && i < p.n && c.Ok()
    ensures var r := Region(p.Bounds(i), [c]);
            var s := Stored(c);
            Product(r.w, r.h) ==
            Product(Between(s.x, s.w, Product(i, p.width), Product(i + 1, p.width)), Before(s.y, s.h, p.height))
  {
    hide Product;
    p.BoundsAre(i);
    Sum(i, 1, p.width);
    One(p.width);
    var s, at := Stored(c), Product(i, p.width);
    var w := Between(s.x, s.w, at, at + p.width);
    var h := Before(s.y, s.h, p.height);
    assert Region(p.Bounds(i), [c]).w == (if w > 0 && h > 0 then w else 0);
    assert Region(p.Bounds(i), [c]).h == (if w > 0 && h > 0 then h else 0);
    if w == 0 || h == 0 {
      Nothing(w, h);
    }
  }

  /** The regions together are as large as the part of the request on the panel. */
  lemma {:induction false} AreaIsConserved(p: Panel, c: Clip, k: nat)
    requires p.Ok() && k <= p.n && c.Ok()
    ensures var s := Stored(c);
            Area(p, [c], k) == Product(Before(s.x, s.w, Product(k, p.width)), Before(s.y, s.h, p.height))
  {
    hide Product, Region, Stored;
    var s := Stored(c);
    var h := Before(s.y, s.h, p.height);
    if k == 0 {
      Nothing(0, p.width);
      Nothing(0, h);
    } else {
      AreaIsConserved(p, c, k - 1);
      RegionArea(p, c, k - 1);
      var a, b := Before(s.x, s.w, Product(k - 1, p.width)), Before(s.x, s.w, Product(k, p.width));
      Monotone(k - 1, k, p.width);
      Sum(a, b - a, h);
    }
  }

  // ---------------------------------------------------------------------
  // The controllers of a display
  // ---------------------------------------------------------------------

  class Display {
    const p: Panel
    var roi: seq<Rect>       // the region each controller was last given
    var updated: seq<bool>   // modeupdated: its mode has changed since
    ghost var sent: seq<nat> // the controllers programmed so far

    ghost predicate Valid()
      reads this
    {
      p.Ok() && |roi| == |updated| == p.n
    }

    constructor (p: Panel)
      requires p.Ok()
      ensures this.p == p && Valid() && sent == [] && forall i :: 0 <= i < p.n ==> updated[i]
    {
      this.p, roi, updated, sent := p, seq(p.n, i => Rect(0, 0, 0, 0)), seq(p.n, i => true), [];
    }

    /** Controller i has to be programmed for a request. */
    predicate Changes(rois: seq<Clip>, i: nat)
      reads this
      requires i < p.n && |roi| == |updated| == p.n
    {
      roi[i] != Region(p.Bounds(i), rois) || updated[i]
    }

    /** dsi_ctrl_set_roi. */
    method StoreRoi(i: nat, r: Rect) returns (changed: bool)
      requires Valid() && i < p.n
      modifies this`roi, this`updated
      ensures Valid() && changed == (old(roi)[i] != r || old(updated)[i])
      ensures roi == old(roi)[i := r] && updated == old(updated)[i := false]
    {
      changed := roi[i] != r || updated[i];
      if changed {
        roi, updated := roi[i := r], updated[i := false];
      }
    }

    /** dsi_display_set_roi, where programming controller i yields rcs[i].  The first `done`
        controllers have their regions; all of them exactly if nothing fails.  The one that
        fails has it too, although it was not programmed. */
    method SetRois(enabled: bool, maxRois: nat, rois: seq<Clip>, rcs: seq<int>) returns (rc: int, ghost done: nat)
      requires Valid() && |rcs| == p.n && forall i :: 0 <= i < |rois| ==> rois[i].Ok()
      modifies this
      ensures Valid() && done <= p.n
      ensures forall i :: 0 <= i < p.n ==>
        if i < done then roi[i] == Region(p.Bounds(i), rois) && !updated[i]
        else roi[i] == old(roi)[i] && updated[i] == old(updated)[i]
      ensures rc == 0 && enabled ==> done == p.n
      ensures rc == 0 <==>
        !enabled || p.n == 0 ||
        (|rois| <= maxRois && forall i :: 0 <= i < p.n && old(Changes(rois, i)) ==> rcs[i] == 0)
      ensures rc != 0 ==>
        if |rois| > maxRois then rc == -22 && done == 0
        else done > 0 && rc == rcs[done - 1] && old(Changes(rois, done - 1))
      ensures var k := if rc == 0 then done else done - Min(done, 1);
              sent == old(sent) + Programmed(old(roi), old(updated), rois, k)
    {
      hide Region, Product, Stored, Common, Rect.Ok, Clip.Ok;
      rc, done := 0, 0;
      if !enabled {
        return;
      }
      ghost var roi0, updated0 := roi, updated;
      var i := 0;
      while i < p.n
        invariant 0 <= i == done <= p.n && Valid() && rc == 0 && (i > 0 ==> |rois| <= maxRois)
        invariant forall j :: 0 <= j < p.n ==>
          if j < i then roi[j] == Region(p.Bounds(j), rois) && !updated[j]
          else roi[j] == roi0[j] && updated[j] == updated0[j]
        invariant forall j :: 0 <= j < i && (roi0[j] != Region(p.Bounds(j), rois) || updated0[j]) ==> rcs[j] == 0
        invariant sent == old(sent) + Programmed(roi0, updated0, rois, i)
      {
        p.BoundsAre(i);
        var out;
        rc, out := CalcCtrlRoi(p.Bounds(i), maxRois, rois, Rect(0, 0, 0, 0));
        if rc != 0 {
          return;
        }
        var changed := StoreRoi(i, out);
        done := i + 1;
        if changed {
          rc := rcs[i];
          if rc != 0 {
            return;
          }
          sent := sent + [i];
        }
        i := i + 1;
      }
    }

    /** Of the first k controllers, those that a request changes. */
    ghost function Programmed(roi: seq<Rect>, updated: seq<bool>, rois: seq<Clip>, k: nat): seq<nat>
      requires k <= p.n && |roi| == |updated| == p.n
    {
      if k == 0 then []
      else
        Programmed(roi, updated, rois, k - 1) +
        if roi[k - 1] != Region(p.Bounds(k - 1), rois) || updated[k - 1] then [k - 1] else []
    }
  }

  /** A request whose programming fails, made again: it succeeds, and nothing is programmed. */
  method FailedRequestIsForgotten(p: Panel, c: Clip) returns (rc1: int, rc2: int, d: Display)
    requires p.Ok() && p.n == 1 && c.Ok()
    ensures rc1 == -5 && rc2 == 0 && d.sent == []
  {
    hide Region, Product;
    d := new Display(p);
    assert d.updated[0] && d.Changes([c], 0);
    ghost var done;
    ghost var roi, updated := d.roi, d.updated;
    rc1, done := d.SetRois(true, 1, [c], [-5]);
    assert done == 1 && d.Programmed(roi, updated, [c], 0) == [];
    roi, updated := d.roi, d.updated;
    assert !d.Changes([c], 0);
    assert d.Programmed(roi, updated, [c], 1) == d.Programmed(roi, updated, [c], 0) + [];
    rc2, done := d.SetRois(true, 1, [c], [-5]);
  }
}
