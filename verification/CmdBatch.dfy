// The transmit path of the DSI controller: packets are padded to words and gathered in
// a 4096-byte buffer until the last command of a batch starts the transfer.
//
// mipi_dsi_create_packet is not part of this model.  What it delivers is assumed: a
// 4-byte header whose last byte is 0 and, for a long packet, the payload, whose length
// is the 16-bit word count in the first two bytes of the header.

module CmdBatch {
  import opened Words

  const SZ_4K: nat := 4096
  const EMBEDDED_MAX: nat := 256  // DSI_EMBEDDED_MODE_DMA_MAX_SIZE_BYTES
  const FIFO_STORE_MAX: nat := 64 // DSI_CTRL_MAX_CMD_FIFO_STORE_SIZE

  function WordCount(header: seq<Byte>): nat
    requires |header| == 4
  {
    header[0] as nat + 256 * (header[1] as nat)
  }

  /** The low byte first. */
  lemma WordCountIs(header: seq<Byte>, n: nat)
    requires |header| == 4 && n < 0x1_0000 && header[0] as nat == n % 256 && header[1] as nat == n / 256
    ensures WordCount(header) == n
  {
  }

  /** A packet as mipi_dsi_create_packet delivers it. */
  datatype Packet = Packet(header: seq<Byte>, payload: seq<Byte>) {
    ghost predicate Ok() {
      |header| == 4 && header[3] == 0 && (payload != [] ==> |payload| == WordCount(header))
    }
  }

  predicate IsRead(t: Byte) {
    t & 0x3F == 0x06 || t & 0x3F == 0x04 || t & 0x3F == 0x14 || t & 0x3F == 0x24
  }

  /** The flags in the last byte of a header: long packet, read, last command. */
  function Flags(long: bool, read: bool, last: bool): Byte {
    (if long then 0x40 else 0) | (if read then 0x20 else 0) | (if last then 0x80 else 0)
  }

  /** A packet as it is sent: the header with its flags, and the payload. */
  datatype Frame = Frame(header: seq<Byte>, payload: seq<Byte>) {
    ghost predicate Ok() {
      |header| == 4 && (header[3] & 0x40 != 0 <==> payload != []) && (payload != [] ==> |payload| == WordCount(header))
    }
  }

  function FrameOf(p: Packet, last: bool): Frame
    requires |p.header| == 4
  {
    Frame(p.header[3 := Flags(p.payload != [], IsRead(p.header[2]), last)], p.payload)
  }

  lemma FrameIsOk(p: Packet, last: bool)
    requires p.Ok()
    ensures FrameOf(p, last).Ok()
  {
    var r := IsRead(p.header[2]);
    assert Flags(true, r, last) & 0x40 != 0;
    assert Flags(false, r, last) & 0x40 == 0;
  }

  /** What the last byte of a header tells: a long packet, a read with its data type, the last
      command of a batch; nothing else.  The rest of the header is as it was. */
  lemma FlagsTell(p: Packet, last: bool)
    requires p.Ok()
    ensures var f := FrameOf(p, last);
            f.payload == p.payload && f.header[..3] == p.header[..3] &&
            (f.header[3] & 0x40 != 0 <==> p.payload != []) && (f.header[3] & 0x80 != 0 <==> last) &&
            (f.header[3] & 0x20 != 0 <==>
              p.header[2] % 0x40 == 0x04 || p.header[2] % 0x40 == 0x06 || p.header[2] % 0x40 == 0x14 ||
              p.header[2] % 0x40 == 0x24) &&
            f.header[3] & 0x1F == 0
  {
    var t := p.header[2];
    assert t & 0x3F == t % 0x40;
    FlagByte(p.payload != [], IsRead(t), last);
  }

  lemma FlagByte(long: bool, read: bool, last: bool)
    ensures var b := Flags(long, read, last);
            (b & 0x40 != 0 <==> long) && (b & 0x20 != 0 <==> read) && (b & 0x80 != 0 <==> last) && b & 0x1F == 0
  {
  }

  function Align(n: nat): (m: nat)
    ensures m % 4 == 0 && n <= m < n + 4
  {
    (n + 3) / 4 * 4
  }

  /** Room for the bytes of a packet is room for its padding, behind whole words. */
  lemma Room(len: nat, n: nat, tx: nat)
    requires len % 4 == 0 && n <= 4 + tx && len + tx + 4 <= 4096
    ensures len + Align(n) <= 4096
  {
    assert Align(n) <= Align(4 + tx);
  }

  function Ones(n: nat): (s: seq<Byte>)
    ensures |s| == n && forall i :: 0 <= i < n ==> s[i] == 0xFF
  {
    seq(n, i => 0xFF)
  }

  /** The bytes of a frame, padded to whole words. */
  function Padded(f: Frame): (s: seq<Byte>)
    ensures |s| == Align(|f.header| + |f.payload|)
  {
    var n := |f.header| + |f.payload|;
    f.header + f.payload + Ones(Align(n) - n)
  }

  /** Header and payload, and 0xFF up to the next word. */
  lemma PaddedIs(f: Frame)
    ensures var s, n := Padded(f), |f.header| + |f.payload|;
            n <= |s| < n + 4 && |s| % 4 == 0 && s[..|f.header|] == f.header && s[|f.header|..n] == f.payload &&
            forall i :: n <= i < |s| ==> s[i] == 0xFF
  {
  }

  ghost predicate AllOk(fs: seq<Frame>) {
    forall i :: 0 <= i < |fs| ==> fs[i].Ok()
  }

  /** The bytes of a batch. */
  function Flat(fs: seq<Frame>): seq<Byte> {
    if fs == [] then [] else Flat(fs[..|fs| - 1]) + Padded(fs[|fs| - 1])
  }

  lemma FlatMore(fs: seq<Frame>, f: Frame)
    ensures Flat(fs + [f]) == Flat(fs) + Padded(f)
    ensures AllOk(fs) && f.Ok() ==> AllOk(fs + [f])
  {
    assert (fs + [f])[..|fs|] == fs;
  }

  lemma SumAligned(a: nat, b: nat)
    requires a % 4 == 0 && b % 4 == 0
    ensures (a + b) % 4 == 0
  {
  }

  /** A batch is made of whole words. */
  lemma {:induction false} FlatAligned(fs: seq<Frame>)
    ensures |Flat(fs)| % 4 == 0
  {
    hide Padded, Align;
    if fs != [] {
      FlatAligned(fs[..|fs| - 1]);
      SumAligned(|Flat(fs[..|fs| - 1])|, |Padded(fs[|fs| - 1])|);
    }
  }

  // ---------------------------------------------------------------------
  // What a receiver makes of a transfer
  // ---------------------------------------------------------------------

  /** Reads frames off the front: a header, as many payload bytes as its word count says
      if it is a long packet, and padding to the next word. */
  function Decode(s: seq<Byte>): (fs: seq<Frame>)
    decreases |s|
  {
    if |s| < 4 then []
    else
      var n := if s[3] & 0x40 != 0 then WordCount(s[..4]) else 0;
      if |s| < Align(4 + n) then [] else [Frame(s[..4], s[4..4 + n])] + Decode(s[Align(4 + n)..])
  }

  lemma DecodeOne(f: Frame, rest: seq<Byte>)
    requires f.Ok()
    ensures Decode(Padded(f) + rest) == [f] + Decode(rest)
  {
    var s := Padded(f) + rest;
    assert s[..4] == f.header;
    assert s[4..4 + |f.payload|] == f.payload;
    assert s[Align(4 + |f.payload|)..] == rest;
  }

  lemma Regroup<T>(a: seq<T>, b: seq<T>, c: seq<T>)
    ensures (a + b) + c == a + (b + c)
  {
  }

  lemma {:induction false} DecodeMore(fs: seq<Frame>, rest: seq<Byte>)
    requires AllOk(fs)
    ensures Decode(Flat(fs) + rest) == fs + Decode(rest)
  {
    if fs == [] {
      assert Flat(fs) + rest == rest;
    } else {
      var front, f := fs[..|fs| - 1], fs[|fs| - 1];
      DecodeMore(front, Padded(f) + rest);
      Regroup(Flat(front), Padded(f), rest);
      DecodeOne(f, rest);
      assert fs == front + [f];
      Regroup(front, [f], Decode(rest));
    }
  }

  /** A receiver gets back the frames of a batch. */
  lemma RoundTrip(fs: seq<Frame>)
    requires AllOk(fs)
    ensures Decode(Flat(fs)) == fs
  {
    DecodeMore(fs, []);
    assert Flat(fs) + [] == Flat(fs);
  }

  // ---------------------------------------------------------------------
  // Transmission
  // ---------------------------------------------------------------------

  datatype Flag = FETCH_MEMORY | FIFO_STORE | NON_EMBEDDED | BROADCAST | DEFER

  /** dsi_message_setup_tx_mode. */
  function TxMode(secure: bool, txLen: nat, flags: set<Flag>): set<Flag> {
    if secure then flags - {FETCH_MEMORY} + {FIFO_STORE}
    else if txLen + 4 > EMBEDDED_MAX then flags + {NON_EMBEDDED}
    else flags
  }

  /** In secure mode everything goes through the FIFO; else what is too long for an embedded
      transfer, of 256 bytes with its header, is not embedded. */
  lemma ModeIs(secure: bool, txLen: nat, flags: set<Flag>)
    ensures var mode := TxMode(secure, txLen, flags);
            (FETCH_MEMORY in mode <==> FETCH_MEMORY in flags && !secure) &&
            (FIFO_STORE in mode <==> FIFO_STORE in flags || secure) &&
            (NON_EMBEDDED in mode <==> NON_EMBEDDED in flags || (!secure && txLen > 252)) &&
            (BROADCAST in mode <==> BROADCAST in flags) && (DEFER in mode <==> DEFER in flags)
  {
  }

  /** A message is refused if it is longer than 60 bytes for the FIFO; if it is not embedded,
      and longer than 4092 bytes or for both links; or if the batch would outgrow 4096 bytes. */
  lemma RefusedIff(cmdLen: nat, txLen: nat, mode: set<Flag>)
    ensures !Fits(cmdLen, txLen, mode) <==>
            (FIFO_STORE in mode && txLen > 60) || (NON_EMBEDDED in mode && (BROADCAST in mode || txLen > 4092)) ||
            (FETCH_MEMORY in mode && cmdLen + txLen + 4 > 4096)
  {
  }

  /** dsi_message_validate_tx_mode, with cmdLen bytes pending; the check of the batch uses
      the length without padding. */
  predicate Fits(cmdLen: nat, txLen: nat, mode: set<Flag>) {
    (FIFO_STORE in mode ==> txLen + 4 <= FIFO_STORE_MAX) &&
    (NON_EMBEDDED in mode ==> BROADCAST !in mode && txLen + 4 <= SZ_4K) &&
    (FETCH_MEMORY in mode ==> cmdLen + txLen + 4 <= SZ_4K)
  }

  /** A message: its transmit buffer, whether it is the last command, and the packet (or
      the error) that mipi_dsi_create_packet makes of it. */
  datatype Msg = Msg(tx: seq<Byte>, last: bool, createRc: int, packet: Packet) {
    ghost predicate Ok() {
      |tx| < 0x1_0000 && (createRc == 0 ==> packet.Ok() && (packet.payload == [] || packet.payload == tx))
    }
  }

  /** What goes out: a batch, a single padded packet, or a raw buffer. */
  datatype Transfer = Batch(bytes: seq<Byte>) | Fifo(bytes: seq<Byte>) | Raw(bytes: seq<Byte>)

  lemma FlagBits(long: bool, read: bool, last: bool)
    ensures 0 | (if long then 0x40 else 0) | (if read then 0x20 else 0) == Flags(long, read, false)
    ensures Flags(long, read, false) | (if last then 0x80 else 0) == Flags(long, read, last)
  {
  }

  /** dsi_ctrl_copy_and_pad_cmd. */
  method CopyAndPad(p: Packet) returns (buf: array<Byte>)
    requires |p.header| == 4 && p.header[3] == 0
    ensures fresh(buf) && buf[..] == Padded(FrameOf(p, false))
  {
    var size := 4 + |p.payload|;
    var len := Align(size);
    buf := new Byte[len];
    var i := 0;
    while i < len
      invariant 0 <= i <= len
      invariant forall x :: 0 <= x < i ==>
        buf[x] == if x >= size then 0xFF else if x < 4 then p.header[x] else p.payload[x - 4]
    {
      if i >= size {
        buf[i] := 0xFF;
      } else if i < 4 {
        buf[i] := p.header[i];
      } else {
        buf[i] := p.payload[i - 4];
      }
      i := i + 1;
    }
    FlagBits(p.payload != [], IsRead(p.header[2]), false);
    buf[3] := buf[3] | (if p.payload != [] then 0x40 else 0) | (if IsRead(buf[2]) then 0x20 else 0);
    assert buf[..] == Padded(FrameOf(p, false));
  }

  /** A message is put in a packet and accepted. */
  predicate Accepted(pending: seq<Frame>, msg: Msg, mode: set<Flag>) {
    Fits(|Flat(pending)|, |msg.tx|, mode) && NON_EMBEDDED !in mode && msg.createRc == 0
  }

  /** The frames pending after a message. */
  function After(pending: seq<Frame>, msg: Msg, mode: set<Flag>): seq<Frame>
    requires |msg.packet.header| == 4
  {
    if Fits(|Flat(pending)|, |msg.tx|, mode) && NON_EMBEDDED in mode then []
    else if Accepted(pending, msg, mode) && FETCH_MEMORY in mode then
      if msg.last then [] else pending + [FrameOf(msg.packet, msg.last)]
    else pending
  }

  /** What a message sends. */
  function Sent(pending: seq<Frame>, msg: Msg, mode: set<Flag>): seq<Transfer>
    requires |msg.packet.header| == 4
  {
    var f := FrameOf(msg.packet, msg.last);
    if Fits(|Flat(pending)|, |msg.tx|, mode) && NON_EMBEDDED in mode then [Raw(msg.tx)]
    else if !Accepted(pending, msg, mode) then []
    else if FETCH_MEMORY in mode then if msg.last then [Batch(Flat(pending + [f]))] else []
    else if FIFO_STORE in mode then [Fifo(Padded(f))] else []
  }

  /** What a message returns; -524 is ENOTSUPP. */
  function Answer(pending: seq<Frame>, msg: Msg, mode: set<Flag>, waitRc: int): int {
    if !Fits(|Flat(pending)|, |msg.tx|, mode) then -524
    else if NON_EMBEDDED in mode then waitRc
    else if msg.createRc != 0 then msg.createRc
    else if (FETCH_MEMORY in mode && !msg.last) || DEFER in mode then 0
    else waitRc
  }

  /** Copying, padding and marking the packet of a message. */
  method BuildPacket(msg: Msg) returns (buf: array<Byte>)
    requires |msg.packet.header| == 4 && msg.packet.header[3] == 0
    ensures fresh(buf) && buf[..] == Padded(FrameOf(msg.packet, msg.last))
  {
    buf := CopyAndPad(msg.packet);
    ghost var b := buf[..];
    FlagBits(msg.packet.payload != [], IsRead(msg.packet.header[2]), msg.last);
    buf[3] := buf[3] | (if msg.last then 0x80 else 0);
    assert buf[..] == b[3 := Flags(msg.packet.payload != [], IsRead(msg.packet.header[2]), msg.last)];
    assert buf[..] == Padded(FrameOf(msg.packet, msg.last));
  }

  class Transmitter {
    const secure: bool            // secure_mode
    const mem: array<Byte>        // the command buffer
    var len: nat                  // cmd_len
    ghost var pending: seq<Frame> // the frames since the last command that ended a batch

    /** The buffer holds the pending frames, in order. */
    ghost predicate Inv()
      reads this, mem
    {
      mem.Length == 4096 && len <= 4096 && AllOk(pending) && mem[..len] == Flat(pending)
    }

    constructor (secure: bool)
      ensures Inv() && fresh(mem) && this.secure == secure && pending == []
    {
      this.secure, mem, len, pending := secure, new Byte[4096], 0, [];
    }

    /** The copy loop of dsi_message_tx. */
    method CopyIn(buf: array<Byte>, at: nat, ghost bytes: seq<Byte>)
      requires buf != mem && at + buf.Length <= mem.Length && bytes == mem[..at] + buf[..]
      modifies mem
      ensures mem[..at + buf.Length] == bytes
    {
      var cnt := 0;
      while cnt < buf.Length
        invariant 0 <= cnt <= buf.Length
        invariant forall x :: 0 <= x < at ==> mem[x] == bytes[x]
        invariant forall x :: at <= x < at + cnt ==> mem[x] == bytes[x]
      {
        mem[at + cnt] := buf[cnt];
        cnt := cnt + 1;
      }
    }

    /** The packet goes behind the pending ones. */
    method Append(buf: array<Byte>, ghost fs: seq<Frame>)
      requires Inv() && buf != mem && len + buf.Length <= 4096
      requires AllOk(fs) && Flat(fs) == mem[..len] + buf[..]
      modifies this`len, this`pending, mem
      ensures Inv() && pending == fs
    {
      CopyIn(buf, len, Flat(fs));
      len, pending := len + buf.Length, fs;
    }

    /** The last command of a batch sends the whole batch. */
    method Flush() returns (out: Transfer)
      requires Inv()
      modifies this`len, this`pending
      ensures Inv() && pending == [] && out == Batch(Flat(old(pending)))
    {
      out := Batch(mem[..len]);
      len, pending := 0, [];
    }

    /** A non-embedded message overwrites the buffer and empties it. */
    method SendRaw(tx: seq<Byte>) returns (out: Transfer)
      requires Inv() && |tx| <= 4096
      modifies this`len, this`pending, mem
      ensures Inv() && pending == [] && out == Raw(tx)
    {
      len := |tx|;
      forall x | 0 <= x < |tx| {
        mem[x] := tx[x];
      }
      out := Raw(mem[..len]);
      len, pending := 0, [];
    }

    /** An accepted packet in embedded mode. */
    method SendEmbedded(msg: Msg, buf: array<Byte>) returns (out: seq<Transfer>)
      requires Inv() && buf != mem && msg.packet.Ok() && buf[..] == Padded(FrameOf(msg.packet, msg.last))
      requires len + buf.Length <= 4096
      modifies this`len, this`pending, mem
      ensures Inv()
      ensures var fs := old(pending) + [FrameOf(msg.packet, msg.last)];
              if msg.last then pending == [] && out == [Batch(Flat(fs))] else pending == fs && out == []
    {
      ghost var f := FrameOf(msg.packet, msg.last);
      FrameIsOk(msg.packet, msg.last);
      FlatMore(pending, f);
      Append(buf, pending + [f]);
      out := [];
      if msg.last {
        var t := Flush();
        out := [t];
      }
    }

    /** dsi_message_tx.  `waitRc` is what waiting for the transfer yields. */
    method MessageTx(msg: Msg, flags: set<Flag>, waitRc: int) returns (rc: int, out: seq<Transfer>)
      requires Inv() && msg.Ok() && |msg.packet.header| == 4
      requires var mode := TxMode(secure, |msg.tx|, flags);
               NON_EMBEDDED in mode ==> FETCH_MEMORY in mode && DEFER !in mode
      modifies this`len, this`pending, mem
      ensures Inv()
      ensures var mode := TxMode(secure, |msg.tx|, flags);
              pending == After(old(pending), msg, mode) && out == Sent(old(pending), msg, mode) &&
              rc == Answer(old(pending), msg, mode, waitRc)
      ensures var mode := TxMode(secure, |msg.tx|, flags);
              var f := FrameOf(msg.packet, msg.last);
              if !Fits(old(len), |msg.tx|, mode) then rc == -524 && out == [] && pending == old(pending)
              else if NON_EMBEDDED in mode then rc == waitRc && out == [Raw(msg.tx)] && pending == []
              else if msg.createRc != 0 then rc == msg.createRc && out == [] && pending == old(pending)
              else if FETCH_MEMORY in mode && !msg.last then rc == 0 && out == [] && pending == old(pending) + [f]
              else
                rc == (if DEFER in mode then 0 else waitRc) &&
                if FETCH_MEMORY in mode then out == [Batch(Flat(old(pending) + [f]))] && pending == []
                else out == (if FIFO_STORE in mode then [Fifo(Padded(f))] else []) && pending == old(pending)
    {
      var mode := TxMode(secure, |msg.tx|, flags);
      out := [];
      if !Fits(len, |msg.tx|, mode) {
        return -524, [];
      }
      if NON_EMBEDDED in mode {
        var t := SendRaw(msg.tx);
        return waitRc, [t];
      }
      if msg.createRc != 0 {
        return msg.createRc, [];
      }
      var buf := BuildPacket(msg);
      if FETCH_MEMORY in mode {
        FlatAligned(pending);
        Room(len, 4 + |msg.packet.payload|, |msg.tx|);
        out := SendEmbedded(msg, buf);
        if !msg.last {
          return 0, out;
        }
      } else if FIFO_STORE in mode {
        out := [Fifo(buf[..])];
      }
      rc := if DEFER in mode then 0 else waitRc;
    }

    /** A run of embedded messages, with any flags.  What a receiver decodes from the batches
        sent, followed by what is still pending, is every packet accepted for fetching, once
        and in order; and what it decodes from the packets sent through the FIFO is every
        packet accepted for that. */
    method Run(reqs: seq<Request>) returns (out: seq<Transfer>)
      requires Inv() && pending == []
      requires forall k :: 0 <= k < |reqs| ==> |reqs[k].msg.packet.header| == 4 && reqs[k].Embedded(secure)
      modifies this`len, this`pending, mem
      ensures Inv() && pending == PendingAfter(secure, reqs)
      ensures Received(out, false) + pending == Fetched(secure, reqs)
      ensures Received(out, true) == Stored(secure, reqs)
      decreases |reqs|
    {
      if reqs == [] {
        return [];
      }
      hide TxMode, Accepted, After, Sent, Fits;
      var past, req := reqs[..|reqs| - 1], reqs[|reqs| - 1];
      out := Run(past);
      ghost var before, got := pending, Received(out, false);
      var _, more := MessageTx(req.msg, req.flags, req.waitRc);
      StepConserves(got, before, req.msg, req.Mode(secure), Fetched(secure, past));
      ReceivedMore(out, more, false);
      ReceivedMore(out, more, true);
      out := out + more;
    }
  }

  /** A message with its flags, and what waiting for its transfer yields. */
  datatype Request = Request(msg: Msg, flags: set<Flag>, waitRc: int) {
    function Mode(secure: bool): set<Flag> {
      TxMode(secure, |msg.tx|, flags)
    }

    ghost predicate Embedded(secure: bool) {
      msg.Ok() && |msg.packet.header| == 4 && NON_EMBEDDED !in Mode(secure)
    }
  }

  /** The frames pending after a run. */
  function PendingAfter(secure: bool, reqs: seq<Request>): seq<Frame>
    requires forall k :: 0 <= k < |reqs| ==> |reqs[k].msg.packet.header| == 4
  {
    if reqs == [] then []
    else
      var past, req := reqs[..|reqs| - 1], reqs[|reqs| - 1];
      After(PendingAfter(secure, past), req.msg, req.Mode(secure))
  }

  /** The frame of a message that is accepted, to be fetched from memory or through the FIFO. */
  function FrameIn(pending: seq<Frame>, msg: Msg, mode: set<Flag>, fifo: bool): seq<Frame>
    requires |msg.packet.header| == 4
  {
    if Accepted(pending, msg, mode) &&
       (if fifo then FETCH_MEMORY !in mode && FIFO_STORE in mode else FETCH_MEMORY in mode)
    then [FrameOf(msg.packet, msg.last)] else []
  }

  /** The packets of a run accepted to be fetched. */
  function Fetched(secure: bool, reqs: seq<Request>): seq<Frame>
    requires forall k :: 0 <= k < |reqs| ==> |reqs[k].msg.packet.header| == 4
  {
    if reqs == [] then []
    else
      var past, req := reqs[..|reqs| - 1], reqs[|reqs| - 1];
      Fetched(secure, past) + FrameIn(PendingAfter(secure, past), req.msg, req.Mode(secure), false)
  }

  /** Those accepted for the FIFO. */
  function Stored(secure: bool, reqs: seq<Request>): seq<Frame>
    requires forall k :: 0 <= k < |reqs| ==> |reqs[k].msg.packet.header| == 4
  {
    if reqs == [] then []
    else
      var past, req := reqs[..|reqs| - 1], reqs[|reqs| - 1];
      Stored(secure, past) + FrameIn(PendingAfter(secure, past), req.msg, req.Mode(secure), true)
  }

  /** What a receiver gets from the batches sent, or from the FIFO. */
  function Received(out: seq<Transfer>, fifo: bool): seq<Frame> {
    if out == [] then [] else Received(out[..|out| - 1], fifo) + Frames(out[|out| - 1], fifo)
  }

  function Frames(t: Transfer, fifo: bool): seq<Frame> {
    if (if fifo then t.Fifo? else t.Batch?) then Decode(t.bytes) else []
  }

  lemma {:induction false} ReceivedMore(out: seq<Transfer>, more: seq<Transfer>, fifo: bool)
    requires |more| <= 1
    ensures Received(out + more, fifo) == Received(out, fifo) + Received(more, fifo)
  {
    hide Frames;
    if more == [] {
      assert out + more == out;
    } else {
      assert more[..0] == [] && Received(more, fifo) == [] + Frames(more[0], fifo);
      assert (out + more)[..|out|] == out && (out + more)[|out|] == more[0];
    }
  }

  lemma ReceivedOne(t: Transfer, fs: seq<Frame>)
    requires AllOk(fs) && t.bytes == Flat(fs)
    ensures Received([t], false) == if t.Batch? then fs else []
    ensures Received([t], true) == if t.Fifo? then fs else []
  {
    hide Decode, Flat;
    RoundTrip(fs);
    assert [t][..0] == [];
  }

  /** No message loses, repeats or reorders a frame. */
  lemma SentOrPending(before: seq<Frame>, msg: Msg, mode: set<Flag>)
    requires |msg.packet.header| == 4 && msg.Ok() && AllOk(before) && NON_EMBEDDED !in mode
    ensures Received(Sent(before, msg, mode), false) + After(before, msg, mode) ==
            before + FrameIn(before, msg, mode, false)
    ensures Received(Sent(before, msg, mode), true) == FrameIn(before, msg, mode, true)
  {
    hide Decode, Fits, Padded, FrameOf, Frame.Ok, Packet.Ok, Flat, Received;
    var f := FrameOf(msg.packet, msg.last);
    ReceivedNothing();
    if Accepted(before, msg, mode) {
      FrameIsOk(msg.packet, msg.last);
      if FETCH_MEMORY in mode && msg.last {
        FlatMore(before, f);
        ReceivedOne(Batch(Flat(before + [f])), before + [f]);
      } else if FETCH_MEMORY !in mode && FIFO_STORE in mode {
        ReceivedFrame(f);
      }
    }
  }

  lemma ReceivedNothing()
    ensures Received([], false) == [] && Received([], true) == []
  {
  }

  lemma ReceivedFrame(f: Frame)
    requires f.Ok()
    ensures Received([Fifo(Padded(f))], false) == [] && Received([Fifo(Padded(f))], true) == [f]
  {
    hide Decode, Padded;
    FlatMore([], f);
    assert [] + [f] == [f] && Flat([]) + Padded(f) == Padded(f);
    ReceivedOne(Fifo(Padded(f)), [f]);
  }

  lemma StepConserves(got: seq<Frame>, before: seq<Frame>, msg: Msg, mode: set<Flag>, accepted: seq<Frame>)
    requires |msg.packet.header| == 4 && msg.Ok() && AllOk(before) && NON_EMBEDDED !in mode && got + before == accepted
    ensures (got + Received(Sent(before, msg, mode), false)) + After(before, msg, mode) ==
            accepted + FrameIn(before, msg, mode, false)
    ensures Received(Sent(before, msg, mode), true) == FrameIn(before, msg, mode, true)
  {
    hide Accepted, Received, Sent, After;
    SentOrPending(before, msg, mode);
    Regroup(got, Received(Sent(before, msg, mode), false), After(before, msg, mode));
    Regroup(got, before, FrameIn(before, msg, mode, false));
  }
}
