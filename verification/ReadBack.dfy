// The read path of the DSI controller: a panel response of any length is
// reassembled through a window of four 32-bit read-back registers.
//
// The panel is the environment.  Asked for at most p bytes it answers with a
// 4-byte header, the first p bytes of its data and a 2-byte checksum (MIPI DSI
// specification, section 8.4.1, Long Packet Format).

module ReadBack {
  import opened Words

  // Packet types of the MIPI DSI specification, section 8.10.
  const GENERIC_SHORT_READ_1: Byte := 0x11
  const GENERIC_SHORT_READ_2: Byte := 0x12
  const GENERIC_LONG_READ: Byte := 0x1A
  const DCS_LONG_READ: Byte := 0x1C
  const DCS_SHORT_READ_1: Byte := 0x21
  const DCS_SHORT_READ_2: Byte := 0x22

  // ---------------------------------------------------------------------
  // Registers
  // ---------------------------------------------------------------------

  /** The last 16 bytes received, oldest first, right-aligned over cleared registers. */
  function Window(received: seq<Byte>): (s: seq<Byte>)
    ensures |s| == 16
  {
    seq(16, i requires 0 <= i < 16 => if i + |received| >= 16 then received[i + |received| - 16] else 0)
  }

  /** The read-back registers, byte by byte: `lanes` holds DSI_RDBK_DATA3 first and
      DSI_RDBK_DATA0 last, each register most significant byte first.  That is the order
      in which ntohl leaves a register in memory on a little-endian machine. */
  class Rdbk {
    var lanes: seq<Byte>
    var count: nat  // upper half of DSI_RDBK_DATA_CTRL

    ghost predicate Valid()
      reads this
    {
      |lanes| == 16 && count < 0x1_0000
    }

    /** The bytes of DSI_RDBK_DATAr. */
    function Data(r: nat): seq<Byte>
      reads this
      requires Valid() && r < 4
    {
      lanes[12 - 4 * r..16 - 4 * r]
    }

    constructor ()
      ensures Valid() && count == 0
    {
      lanes, count := seq(16, i => 0), 0;
    }

    method Clear()
      modifies this
      ensures Valid() && count == 0 && lanes == Window([])
    {
      lanes, count := seq(16, i => 0), 0;
    }

    /** The hardware shifts a response in behind what the registers hold. */
    method Receive(received: seq<Byte>)
      requires Valid()
      modifies this
      ensures Valid() && count == |received| % 0x1_0000 && lanes == (old(lanes) + received)[|received|..]
      ensures old(lanes) == Window([]) ==> lanes == Window(received)
    {
      lanes, count := (lanes + received)[|received|..], |received| % 0x1_0000;
      assert forall i :: 0 <= i < 16 && i + |received| >= 16 ==> lanes[i] == received[i + |received| - 16];
    }
  }

  // ---------------------------------------------------------------------
  // get_cmd_read_data
  // ---------------------------------------------------------------------

  /** The byte count after the report of an error, if one follows the response, is taken
      off; the comparison is on 32-bit unsigned values. */
  function ReadCount(count: nat, rxByte: nat, pktSize: nat): nat
    requires pktSize < 0x1_0000
  {
    if (if rxByte == 4 then count == 8 else (count - 4) % 0x1_0000_0000 == pktSize + 6) then count - 4 else count
  }

  /** An error report of four bytes behind a response is taken off the count: behind a long
      response to `pktSize` bytes, or behind a short packet.  Any other count is kept. */
  lemma ReportIsTakenOff(count: nat, pktSize: nat)
    requires count < 0x1_0000 && pktSize < 0x1_0000
    ensures ReadCount(count, 16, pktSize) == if count == 4 + pktSize + 2 + 4 then 4 + pktSize + 2 else count
    ensures ReadCount(count, 4, pktSize) == if count == 4 + 4 then 4 else count
  {
  }

  /** s' is s with t[from..] written over it from `at` on. */
  ghost predicate Laid<T>(s': seq<T>, s: seq<T>, at: nat, t: seq<T>, from: nat) {
    |s'| == |s| && from <= |t| && at + |t| - from <= |s| &&
    forall x :: 0 <= x < |s| ==> s'[x] == if at <= x < at + |t| - from then t[x - at + from] else s[x]
  }

  method StoreWord(dst: array<Byte>, at: nat, w: seq<Byte>)
    requires |w| == 4 && at + 4 <= dst.Length
    modifies dst
    ensures forall x :: at <= x < at + 4 ==> dst[x] == w[x - at]
    ensures forall x :: 0 <= x < dst.Length && !(at <= x < at + 4) ==> dst[x] == old(dst[x])
  {
    dst[at], dst[at + 1], dst[at + 2], dst[at + 3] := w[0], w[1], w[2], w[3];
  }

  /** The registers from DATA(cnt - 1) down to DATA0, stored upwards from `at`. */
  method LoadWords(regs: Rdbk, dst: array<Byte>, at: nat, cnt: nat)
    requires regs.Valid() && cnt <= 4 && at + 4 * cnt <= dst.Length
    modifies dst
    ensures Laid(dst[..], old(dst[..]), at, regs.lanes, 16 - 4 * cnt)
  {
    var i := 0;
    while i < cnt
      invariant 0 <= i <= cnt
      invariant forall x :: at <= x < at + 4 * i ==> dst[x] == regs.lanes[16 - 4 * cnt + x - at]
      invariant forall x :: 0 <= x < dst.Length && !(at <= x < at + 4 * i) ==> dst[x] == old(dst[x])
    {
      StoreWord(dst, at + 4 * i, regs.Data(cnt - 1 - i));
      i := i + 1;
    }
  }

  /** Copies src[from..] to dst from `at` on. */
  method CopyTail(src: array<Byte>, from: nat, dst: array<Byte>, at: nat)
    requires src != dst && from <= src.Length && at + src.Length - from <= dst.Length
    modifies dst
    ensures Laid(dst[..], old(dst[..]), at, src[..], from)
  {
    var i, j := from, 0;
    while i < src.Length
      invariant from <= i <= src.Length && j == i - from
      invariant forall x :: at <= x < at + j ==> dst[x] == src[from + x - at]
      invariant forall x :: 0 <= x < dst.Length && !(at <= x < at + j) ==> dst[x] == old(dst[x])
    {
      dst[at + j] := src[i];
      i, j := i + 1, j + 1;
    }
  }

  /** The bytes of the registers behind the repeated ones, stored from `at` on. */
  method LoadFresh(regs: Rdbk, buf: array<Byte>, at: nat, repeated: nat)
    requires regs.Valid() && repeated <= 16 && at + 16 - repeated <= buf.Length
    modifies buf
    ensures Laid(buf[..], old(buf[..]), at, regs.lanes, repeated)
  {
    var reg := new Byte[16];
    LoadWords(regs, reg, 0, 4);
    assert reg[..] == regs.lanes;
    CopyTail(reg, repeated, buf, at);
  }

  /** How many leading bytes of the window an earlier pass has already stored. */
  function RepeatedBytes(readCnt: nat, readOffset: nat, rxByte: nat): (r: int)
    ensures readCnt > 16 ==> r == readOffset + rxByte - readCnt
  {
    if readCnt <= 16 then 0
    else
      var shifted := readCnt - rxByte;
      var lost := if shifted >= 4 then shifted - 4 else 0;
      var header := if shifted >= 4 then 0 else 4 - shifted;
      (readOffset - 4) - lost + header
  }

  /** The bytes of the window one read-back keeps: all that were asked for, or those
      after the ones an earlier pass already stored. */
  function Kept(readCnt: nat, readOffset: nat, rxByte: nat): int {
    if readCnt > 16 then readCnt - readOffset else rxByte
  }

  /** One read-back: the last `Kept` bytes of the window land at `at`.  A return of 0
      means that nothing was read. */
  method GetCmdReadData(regs: Rdbk, buf: array<Byte>, at: nat, readOffset: nat, rxByte: nat, pktSize: nat)
    returns (n: nat, hwReadCnt: nat)
    requires regs.Valid() && pktSize < 0x1_0000
    requires rxByte == 4 || rxByte == 16
    requires var r := ReadCount(regs.count, rxByte, pktSize);
             r != 0 ==>
               (r > 16 ==> rxByte == 16) && 0 <= Kept(r, readOffset, rxByte) <= 16 &&
               at + Kept(r, readOffset, rxByte) <= buf.Length
    modifies buf
    ensures var r := ReadCount(regs.count, rxByte, pktSize);
            if r == 0 then n == 0 && buf[..] == old(buf[..])
            else
              var k := Kept(r, readOffset, rxByte);
              n == rxByte && hwReadCnt == r &&
              Laid(buf[..], old(buf[..]), at, regs.lanes, 16 - k)
  {
    var cnt := (rxByte + 3) / 4;
    if cnt > 4 {
      cnt := 4;
    }
    assert 4 * cnt == rxByte;
    hwReadCnt := ReadCount(regs.count, rxByte, pktSize);
    if hwReadCnt == 0 {
      n := 0;
      return;
    }
    var repeated := RepeatedBytes(hwReadCnt, readOffset, rxByte);
    if repeated == 0 {
      LoadWords(regs, buf, at, cnt);
    } else {
      LoadFresh(regs, buf, at, repeated);
    }
    n := rxByte;
  }

  // ---------------------------------------------------------------------
  // The panel
  // ---------------------------------------------------------------------

  /** What one pass meets: a transmission fails with its error code, the panel stays
      silent, or it sends a long packet with its data or some other bytes. */
  datatype Fate =
    | SetSizeFails(rc: int)
    | ReadFails(rc: int)
    | Silent
    | SendsLong(header: seq<Byte>, checksum: seq<Byte>)
    | SendsOther(bytes: seq<Byte>)
  {
    /** A long read gets a long packet.  A short one may get anything that fits in the window:
        a short packet, a long one, an error report, or a packet and an error report. */
    predicate Ok(long: bool) {
      match this
      case SetSizeFails(rc) => rc != 0
      case ReadFails(rc) => rc != 0
      case Silent => true
      case SendsLong(h, c) => |h| == 4 && |c| == 2 && IsLong(h[0])
      case SendsOther(b) => !long && |b| <= 16
    }
  }

  predicate IsLong(t: Byte) { t in {GENERIC_LONG_READ, DCS_LONG_READ} }
  predicate IsShort1(t: Byte) { t in {GENERIC_SHORT_READ_1, DCS_SHORT_READ_1} }
  predicate IsShort2(t: Byte) { t in {GENERIC_SHORT_READ_2, DCS_SHORT_READ_2} }

  /** A panel with its data; pass k meets fates[k], a pass after those meets `last`. */
  datatype Panel = Panel(data: seq<Byte>, fates: seq<Fate>, last: Fate) {
    function At(k: nat): Fate {
      if k < |fates| then fates[k] else last
    }

    /** The bytes sent in pass k when asked for at most p. */
    function Response(k: nat, p: nat): seq<Byte> {
      match At(k)
      case SendsLong(h, c) => h + data[..if p < |data| then p else |data|] + c
      case SendsOther(b) => b
      case _ => []
    }

    predicate Ok(long: bool) {
      last.Ok(long) && forall f :: f in fates ==> f.Ok(long)
    }

    lemma OkAt(long: bool, k: nat)
      requires Ok(long)
      ensures At(k).Ok(long)
    {
    }
  }

  /** The types by their numbers. */
  lemma Types(t: Byte)
    ensures IsLong(t) <==> t == 0x1A || t == 0x1C
    ensures IsShort1(t) <==> t == 0x11 || t == 0x21
    ensures IsShort2(t) <==> t == 0x12 || t == 0x22
  {
  }

  predicate IsLongResponse(r: seq<Byte>, data: seq<Byte>, p: nat) {
    |r| == p + 6 && p <= |data| && r[0] in {GENERIC_LONG_READ, DCS_LONG_READ} &&
    forall x :: 4 <= x < p + 4 ==> r[x] == data[x - 4]
  }

  /** The size requested in pass k of a read of n bytes. */
  function PassSize(n: nat, k: nat): (p: nat)
  {
    if n < 10 + 14 * k then n else 10 + 14 * k
  }

  /** How a read ends: all passes went through, or pass k stopped it with a code. */
  datatype Ending = Complete(passes: nat) | Stopped(k: nat, rc: int)

  /** The ending of a read of n bytes that has come to pass k.  The size is sent as two
      bytes and the hardware counts received bytes in sixteen bits. */
  function EndingFrom(panel: Panel, n: nat, k: nat): Ending
    decreases n - PassSize(n, k)
  {
    var p := PassSize(n, k);
    match panel.At(k)
    case SetSizeFails(rc) => Stopped(k, rc)
    case ReadFails(rc) => Stopped(k, rc)
    case _ =>
      if |panel.Response(k, p % 0x1_0000)| % 0x1_0000 == 0 then Stopped(k, 0)
      else if p == n then Complete(k + 1)
      else EndingFrom(panel, n, k + 1)
  }

  // ---------------------------------------------------------------------
  // dsi_message_rx
  // ---------------------------------------------------------------------

  /** The first bytes of a long response are stored up to `upto`. */
  ghost predicate Stored(buf: seq<Byte>, data: seq<Byte>, upto: nat) {
    upto == 0 ||
    (4 <= upto <= |buf| && upto - 4 <= |data| && buf[0] in {GENERIC_LONG_READ, DCS_LONG_READ} &&
     forall x :: 4 <= x < upto ==> buf[x] == data[x - 4])
  }

  lemma PassStores(buf: seq<Byte>, buf': seq<Byte>, data: seq<Byte>, r: seq<Byte>, p: nat, at: nat)
    requires IsLongResponse(r, data, p) && Stored(buf, data, at) && p >= 10 && p <= at + 10 && at <= p + 4
    requires Laid(buf', buf, at, Window(r), 16 - (p + 6 - at))
    ensures Stored(buf', data, p + 4)
  {
    forall x | 4 <= x < p + 4
      ensures buf'[x] == data[x - 4]
    {
      assert buf'[x] == if at <= x then r[x] else buf[x];
    }
  }

  /** One pass: set the return size, clear the registers, send the read, collect. */
  method ReadPass(regs: Rdbk, panel: Panel, buf: array<Byte>, k: nat, at: nat, rxByte: nat, size: nat)
    returns (rc: int, dlen: nat, hwReadCnt: nat)
    requires size < 0x1_0000 && (rxByte == 4 || rxByte == 16)
    requires var c := ReadCount(|panel.Response(k, size)| % 0x1_0000, rxByte, size);
             c != 0 ==>
               (c > 16 ==> rxByte == 16) && 0 <= Kept(c, at, rxByte) <= 16 && at + Kept(c, at, rxByte) <= buf.Length
    modifies regs, buf
    ensures match panel.At(k)
            case SetSizeFails(e) => rc == e && dlen == 0
            case ReadFails(e) => rc == e && dlen == 0 && regs.lanes == Window([]) && regs.count == 0
            case _ =>
              var r := panel.Response(k, size);
              var c := ReadCount(|r| % 0x1_0000, rxByte, size);
              rc == 0 &&
              if c == 0 then dlen == 0
              else
                dlen == rxByte && hwReadCnt == c &&
                Laid(buf[..], old(buf[..]), at, Window(r), 16 - Kept(c, at, rxByte))
  {
    hide ReadCount, Kept, Laid;
    dlen, hwReadCnt := 0, 0;
    match panel.At(k) {
      case SetSizeFails(e) =>
        rc := e;
      case ReadFails(e) =>
        regs.Clear();
        rc := e;
      case _ =>
        regs.Clear();
        regs.Receive(panel.Response(k, size));
        rc := 0;
        dlen, hwReadCnt := GetCmdReadData(regs, buf, at, at, rxByte, size);
    }
  }

  /** Where a complete response begins: right-aligned when shorter than the window. */
  function Start(n: nat): nat {
    if n < 10 then 10 - n else 0
  }

  /** The whole response to a read of n bytes is in the buffer. */
  ghost predicate Landed(buf: seq<Byte>, data: seq<Byte>, n: nat) {
    Start(n) + 4 + n <= |buf| && n <= |data| && buf[Start(n)] in {GENERIC_LONG_READ, DCS_LONG_READ} &&
    forall x :: Start(n) + 4 <= x < Start(n) + 4 + n ==> buf[x] == data[x - Start(n) - 4]
  }

  lemma EndingStep(panel: Panel, n: nat, k: nat)
    requires 2 < n <= |panel.data| && panel.Ok(true) && PassSize(n, k) <= 65530
    ensures var p := PassSize(n, k);
            EndingFrom(panel, n, k) ==
              match panel.At(k)
              case SetSizeFails(rc) => Stopped(k, rc)
              case ReadFails(rc) => Stopped(k, rc)
              case Silent => Stopped(k, 0)
              case _ =>
                if p == 65530 then Stopped(k, 0)
                else if p == n then Complete(k + 1)
                else EndingFrom(panel, n, k + 1)
  {
    hide Window, IsLongResponse, IsShort1, IsShort2, ReadCount;
    panel.OkAt(true, k);
  }

  lemma PlainCount(size: nat)
    requires size <= 65530
    ensures ReadCount((size + 6) % 0x1_0000, 16, size) == (if size == 65530 then 0 else size + 6)
    ensures ReadCount(0, 16, size) == 0
  {
  }

  lemma ShortPassLands(buf: seq<Byte>, buf': seq<Byte>, data: seq<Byte>, r: seq<Byte>, n: nat)
    requires n < 10 && IsLongResponse(r, data, n) && Laid(buf', buf, 0, Window(r), 0)
    ensures Landed(buf', data, n)
  {
    assert buf'[10 - n] == r[0];
    forall x | 14 - n <= x < 14
      ensures buf'[x] == data[x - 14 + n]
    {
      assert buf'[x] == r[x - 10 + n];
    }
  }

  lemma LongResponse(panel: Panel, k: nat, p: nat)
    requires p <= |panel.data| && panel.At(k).Ok(true) && panel.At(k).SendsLong?
    ensures IsLongResponse(panel.Response(k, p), panel.data, p)
  {
    var r := panel.Response(k, p);
    forall x | 4 <= x < p + 4
      ensures r[x] == panel.data[x - 4]
    {
    }
  }

  /** Pass k of a long read stores the response up to the requested size. */
  method CollectPass(regs: Rdbk, panel: Panel, n: nat, buf: array<Byte>, k: nat, at: nat, size: nat)
    returns (rc: int, dlen: nat, hwReadCnt: nat)
    requires 2 < size <= n <= |panel.data| && size <= 65530 && n + 6 <= buf.Length && 16 <= buf.Length
    requires panel.At(k).Ok(true)
    requires at <= size + 3 && size <= at + 10 && (size <= 10 ==> at == 0) && (size < 10 ==> size == n)
    requires Stored(buf[..], panel.data, at)
    modifies regs, buf
    ensures match panel.At(k)
            case SetSizeFails(e) => rc == e && dlen == 0
            case ReadFails(e) => rc == e && dlen == 0
            case Silent => rc == 0 && dlen == 0
            case _ =>
              rc == 0 &&
              if size == 65530 then dlen == 0
              else
                dlen == 16 && hwReadCnt == size + 6 &&
                if size < 10 then Landed(buf[..], panel.data, n) else Stored(buf[..], panel.data, size + 4)
  {
    hide Window, Laid, Stored, Landed, PassSize;
    ghost var before := buf[..];
    ghost var r := panel.Response(k, size);
    if panel.At(k).SendsLong? {
      LongResponse(panel, k, size);
    }
    PlainCount(size);
    rc, dlen, hwReadCnt := ReadPass(regs, panel, buf, k, at, 16, size);
    if rc == 0 && dlen != 0 {
      if size < 10 {
        ShortPassLands(before, buf[..], panel.data, r, size);
      } else {
        PassStores(before, buf[..], panel.data, r, size, at);
      }
    }
  }

  /** Pass k of a long read either stops it, or completes it, or leads on to pass k + 1. */
  method LongPass(regs: Rdbk, panel: Panel, n: nat, buf: array<Byte>, k: nat, at: nat, size: nat)
    returns (rc: int, dlen: nat, hwReadCnt: nat)
    requires 2 < n <= |panel.data| && panel.Ok(true) && n + 6 <= buf.Length && 16 <= buf.Length
    requires size == PassSize(n, k) <= 65530 && at == 14 * k && (k > 0 ==> at <= n + 3)
    requires Stored(buf[..], panel.data, at)
    modifies regs, buf
    ensures rc != 0 || dlen == 0 ==> EndingFrom(panel, n, k) == Stopped(k, rc)
    ensures rc == 0 && dlen != 0 ==>
      dlen == 16 && hwReadCnt == size + 6 && size < 65530 &&
      if size == n then EndingFrom(panel, n, k) == Complete(k + 1) && Landed(buf[..], panel.data, n)
      else EndingFrom(panel, n, k) == EndingFrom(panel, n, k + 1) && Stored(buf[..], panel.data, size + 4)
  {
    EndingStep(panel, n, k);
    panel.OkAt(true, k);
    rc, dlen, hwReadCnt := CollectPass(regs, panel, n, buf, k, at, size);
  }

  /** The loop variables at the start of pass k, and the room left. */
  predicate AtPass(n: nat, k: nat, curLen: nat, size: nat, rlen: nat) {
    curLen == (if k == 0 then 10 else 14) && size == PassSize(n, k) &&
    rlen == (if k == 0 then n else n + 4 - 14 * k)
  }

  /** Pass k requested min(n, 10 + 14 k) bytes. */
  predicate Requested(n: nat, asked: seq<nat>) {
    forall k :: 0 <= k < |asked| ==> asked[k] == if n < 10 + 14 * k then n else 10 + 14 * k
  }

  lemma NextPass(n: nat, k: nat, curLen: nat, size: nat, rlen: nat)
    requires AtPass(n, k, curLen, size, rlen) && rlen > 0 && size < 65530
    ensures rlen <= curLen <==> size == n
    ensures rlen <= curLen ==> 14 * k + 14 - (curLen - rlen) == n + 4
    ensures rlen > curLen ==>
      var size' := size + if rlen - curLen < 14 then rlen - curLen else 14;
      AtPass(n, k + 1, 14, size', rlen - curLen) && size' <= 65530 && size + 4 == 14 * (k + 1)
  {
  }

  /** The read loop for more than two bytes. */
  method ReadLong(regs: Rdbk, panel: Panel, n: nat, buf: array<Byte>)
    returns (ok: bool, rc: int, start: nat, total: nat, asked: seq<nat>)
    requires 2 < n <= |panel.data| && panel.Ok(true)
    requires 16 <= buf.Length && n + 6 <= buf.Length
    modifies regs, buf
    ensures Requested(n, asked)
    ensures match EndingFrom(panel, n, 0)
            case Stopped(k, e) => !ok && rc == e && |asked| == k + 1
            case Complete(m) =>
              ok && total == n + 4 && |asked| == m && m > 0 && asked[m - 1] == n &&
              start == Start(n) && Landed(buf[..], panel.data, n)
  {
    ok, rc, start, total, asked := false, 0, 0, 0, [];
    var curLen: nat, size: nat, rlen: nat := 10, if n < 10 then n else 10, n;
    var k: nat, at: nat, hwReadCnt: nat, done := 0, 0, 0, false;
    ghost var ending := EndingFrom(panel, n, 0);
    while !done
      invariant |asked| == k && Requested(n, asked)
      invariant !done ==>
        rlen > 0 && AtPass(n, k, curLen, size, rlen) && size <= 65530 && at == total == 14 * k &&
        Stored(buf[..], panel.data, at) && EndingFrom(panel, n, k) == ending
      invariant done ==>
        ending == Complete(k) && k > 0 && asked[k - 1] == n &&
        total == n + 4 && hwReadCnt == n + 6 && Landed(buf[..], panel.data, n)
      decreases if done then 0 else rlen
    {
      asked := asked + [size];
      var dlen;
      rc, dlen, hwReadCnt := LongPass(regs, panel, n, buf, k, at, size);
      if rc != 0 || dlen == 0 {
        return;
      }
      NextPass(n, k, curLen, size, rlen);
      k := k + 1;
      var diff: nat := 0;
      if rlen <= curLen {
        diff := curLen - rlen;
        done := true;
      } else {
        rlen := rlen - curLen;
      }
      dlen := dlen - 2 - diff;
      at := at + dlen;
      total := total + dlen;
      if !done {
        curLen := 14;
        size := size + if rlen < curLen then rlen else curLen;
      }
    }
    ok := true;
    if hwReadCnt < 16 {
      start := 16 - hwReadCnt;
    }
  }

  /** memcpy as a forward copy; the driver relies on it, since the two ranges overlap. */
  method CopyDown(buf: array<Byte>, from: nat, n: nat)
    requires from + n <= buf.Length
    modifies buf
    ensures buf[..n] == old(buf[from..from + n])
  {
    var i := 0;
    while i < n
      invariant 0 <= i <= n
      invariant forall x :: 0 <= x < i ==> buf[x] == old(buf[from + x])
      invariant forall x :: i <= x < buf.Length ==> buf[x] == old(buf[x])
    {
      buf[i] := buf[from + i];
      i := i + 1;
    }
  }

  /** Decodes the response that begins at `start`; the value is the number of bytes read. */
  method ParseResponse(buf: array<Byte>, start: nat, n: nat) returns (rc: int)
    requires start + 4 <= buf.Length
    requires buf[start] in {GENERIC_LONG_READ, DCS_LONG_READ} ==> start + 4 + n <= buf.Length
    modifies buf
    ensures old(buf[start]) in {GENERIC_LONG_READ, DCS_LONG_READ} ==>
              rc == n && buf[..n] == old(buf[start + 4..start + 4 + n])
    ensures IsShort1(old(buf[start])) ==>
              if n >= 1 then rc == 1 && buf[0] == old(buf[start + 1]) else rc == 0
    ensures IsShort2(old(buf[start])) ==>
              if n >= 2 then rc == 2 && buf[..2] == old(buf[start + 1..start + 3]) else rc == 0
    ensures !IsLong(old(buf[start])) && !IsShort1(old(buf[start])) && !IsShort2(old(buf[start])) ==> rc == 0
    ensures n >= 1 && (old(buf[start]) == 0x11 || old(buf[start]) == 0x21) ==>
              rc == 1 && buf[0] == old(buf[start + 1])
    ensures n >= 2 && (old(buf[start]) == 0x12 || old(buf[start]) == 0x22) ==>
              rc == 2 && buf[..2] == old(buf[start + 1..start + 3])
    ensures old(buf[start]) == 0x1A || old(buf[start]) == 0x1C ==>
              rc == n && buf[..n] == old(buf[start + 4..start + 4 + n])
    ensures old(buf[start]) == 0x02 ==> rc == 0
  {
    rc := 0;
    var cmd := buf[start];
    if IsShort1(cmd) {
      if n >= 1 {
        buf[0] := buf[start + 1];
        rc := 1;
      }
    } else if IsShort2(cmd) {
      if n >= 2 {
        buf[0], buf[1] := buf[start + 1], buf[start + 2];
        rc := 2;
      }
    } else if cmd == GENERIC_LONG_READ || cmd == DCS_LONG_READ {
      CopyDown(buf, start + 4, n);
      rc := n;
    }
  }

  /** What DSI_RDBK_DATA0 holds: the last four bytes received. */
  function LastFour(r: seq<Byte>): (w: seq<Byte>)
    ensures |w| == 4
    ensures if |r| >= 4 then w == r[|r| - 4..] else w[4 - |r|..] == r && forall i :: 0 <= i < 4 - |r| ==> w[i] == 0
  {
    Window(r)[12..]
  }

  lemma ShortCount(count: nat)
    requires count < 0x1_0000
    ensures ReadCount(count, 4, 0) == ReadCount(count, 4, 1) == ReadCount(count, 4, 2)
    ensures ReadCount(count, 4, 0) == if count == 8 then 4 else count
  {
  }

  /** The single pass of a read of at most two bytes: only DATA0 is looked at. */
  method ReadShort(regs: Rdbk, panel: Panel, n: nat, buf: array<Byte>) returns (ok: bool, rc: int)
    requires n <= 2 && panel.At(0).Ok(false) && buf.Length >= 4
    modifies regs, buf
    ensures ok <==> panel.Response(0, n) != []
    ensures match panel.At(0)
            case SetSizeFails(e) => rc == e
            case ReadFails(e) => rc == e
            case _ => rc == 0
    ensures ok ==> buf[..4] == LastFour(panel.Response(0, n))
    ensures ok ==> forall x :: 4 <= x < buf.Length ==> buf[x] == old(buf[x])
  {
    ShortCount(|panel.Response(0, n)|);
    hide Window, ReadCount;
    var dlen, hwReadCnt;
    rc, dlen, hwReadCnt := ReadPass(regs, panel, buf, 0, 0, 4, n);
    ok := dlen != 0;
    assert ok ==> forall x :: 0 <= x < 4 ==> buf[x] == LastFour(panel.Response(0, n))[x];
  }

  /** A read of n bytes into `buf`.  `asked` lists the sizes requested by a long read,
      `total` is the number of bytes it has accounted for. */
  method MessageRx(regs: Rdbk, panel: Panel, n: nat, buf: array<Byte>)
    returns (rc: int, total: nat, asked: seq<nat>)
    requires panel.Ok(n > 2) && (n > 2 ==> n <= |panel.data|)
    requires buf.Length >= if n <= 2 then 4 else if n <= 10 then 16 else n + 6
    requires n <= 2 && IsLong(LastFour(panel.Response(0, n))[0]) ==> buf.Length >= 4 + n
    modifies regs, buf
    ensures n > 2 ==> Requested(n, asked)
    ensures n > 2 ==>
      match EndingFrom(panel, n, 0)
      case Complete(m) =>
        rc == n && buf[..n] == panel.data[..n] && total == n + 4 && |asked| == m > 0 && asked[m - 1] == n
      case Stopped(k, e) => rc == e && |asked| == k + 1
    ensures n <= 2 && panel.Response(0, n) == [] ==>
      rc == match panel.At(0)
            case SetSizeFails(e) => e
            case ReadFails(e) => e
            case _ => 0
    ensures n <= 2 && panel.Response(0, n) != [] ==>
      var w := LastFour(panel.Response(0, n));
      if IsShort1(w[0]) && n >= 1 then rc == 1 && buf[0] == w[1]
      else if IsShort2(w[0]) && n >= 2 then rc == 2 && buf[..2] == w[1..3]
      else if IsLong(w[0]) then rc == n && buf[..n] == old(buf[4..4 + n])
      else rc == 0
    ensures n <= 2 && panel.Response(0, n) != [] ==>
      var w := LastFour(panel.Response(0, n));
      if w[0] == 0x11 || w[0] == 0x21 then if n >= 1 then rc == 1 && buf[0] == w[1] else rc == 0
      else if w[0] == 0x12 || w[0] == 0x22 then if n >= 2 then rc == 2 && buf[..2] == w[1..3] else rc == 0
      else if w[0] == 0x1A || w[0] == 0x1C then rc == n
      else rc == 0
  {
    hide Window, ReadCount, Kept, PassSize, EndingFrom, Requested;
    var ok, start := false, 0;
    if n <= 2 {
      panel.OkAt(false, 0);
      asked, total := [n], 0;
      ok, rc := ReadShort(regs, panel, n, buf);
      assert ok ==> forall i :: 0 <= i < 4 ==> buf[i] == LastFour(panel.Response(0, n))[i];
    } else {
      ok, rc, start, total, asked := ReadLong(regs, panel, n, buf);
      assert ok ==> IsLong(buf[start]) && buf[start + 4..start + 4 + n] == panel.data[..n];
    }
    if ok {
      rc := ParseResponse(buf, start, n);
    }
  }

  /** The passes a read of n bytes needs. */
  function Passes(n: nat): nat {
    if n <= 10 then 1 else 1 + (n + 3) / 14
  }

  lemma {:induction false} CompletesFrom(panel: Panel, n: nat, k: nat)
    requires 2 < n <= |panel.data| && panel.Ok(true)
    requires k <= 4680 && (k > 0 ==> PassSize(n, k - 1) < n)
    ensures EndingFrom(panel, n, k).Complete? <==>
            n <= 65529 && forall j :: k <= j < Passes(n) ==> panel.At(j).SendsLong?
    ensures EndingFrom(panel, n, k).Complete? ==> EndingFrom(panel, n, k).passes == Passes(n)
    decreases 4681 - k
  {
    EndingStep(panel, n, k);
    panel.OkAt(true, k);
    if panel.At(k).SendsLong? && PassSize(n, k) < 65530 && PassSize(n, k) < n {
      CompletesFrom(panel, n, k + 1);
    }
  }

  /** A long read succeeds exactly when it asks for at most 65529 bytes, the most whose
      response the 16-bit byte count can hold, and the panel answers in every pass. */
  lemma ReadCompletes(panel: Panel, n: nat)
    requires 2 < n <= |panel.data| && panel.Ok(true)
    ensures EndingFrom(panel, n, 0).Complete? <==>
            n <= 65529 && forall j :: 0 <= j < Passes(n) ==> panel.At(j).SendsLong?
  {
    CompletesFrom(panel, n, 0);
  }

  /** A longer read from a panel that always answers stops in pass 4680: the response to
      65530 bytes is counted as empty. */
  lemma {:induction false} LongerReadStops(panel: Panel, n: nat, k: nat)
    requires 65529 < n <= |panel.data| && panel.Ok(true)
    requires forall j :: 0 <= j <= 4680 ==> panel.At(j).SendsLong?
    requires k <= 4680
    ensures EndingFrom(panel, n, k) == Stopped(4680, 0)
    decreases 4680 - k
  {
    EndingStep(panel, n, k);
    if k < 4680 {
      LongerReadStops(panel, n, k + 1);
    }
  }
}
