// Reading and clearing the error status of a DSI controller.  The six status registers
// are write-one-to-clear.

module ErrorStatus {
  import opened Words

  // The registers DSI_DLN0_PHY_ERR, DSI_FIFO_STATUS, DSI_ACK_ERR_STATUS, DSI_TIMEOUT_STATUS,
  // DSI_CLK_STATUS and DSI_STATUS.
  const PHY: nat := 0
  const FIFO: nat := 1
  const ACK: nat := 2
  const TIMEOUT: nat := 3
  const CLK: nat := 4
  const STATUS: nat := 5

  /** The errors a controller can report, by bit of the error list. */
  predicate IsError(e: nat) {
    e <= 24 || e == 28
  }

  /** The register that holds an error. */
  function RegOf(e: nat): (r: nat)
    ensures r < 6
  {
    if e <= 4 || e == 12 then ACK
    else if e <= 7 then TIMEOUT
    else if e == 8 then CLK
    else if e <= 11 || e == 24 || e == 28 then PHY
    else if e == 13 then STATUS
    else FIFO
  }

  /** And its bit there. */
  function BitOf(e: nat): nat {
    if e == 0 then 16 else if e == 1 then 17 else if e == 2 then 20 else if e == 3 then 23 else if e == 4 then 24
    else if e == 12 then 15
    else if e == 5 then 4 else if e == 6 then 0 else if e == 7 then 8
    else if e == 8 then 16
    else if e == 9 then 0 else if e == 10 then 4 else if e == 11 then 8 else if e == 24 then 12 else if e == 28 then 16
    else if e == 13 then 31
    else if e == 14 then 10 else if e == 15 then 7
    else if e <= 19 then 18 + 4 * (e - 16)
    else if e <= 23 then 19 + 4 * (e - 20)
    else 32
  }

  /** No two errors share a bit. */
  function ErrorAt(r: nat, b: nat): int {
    if r == ACK then
      if b == 15 then 12 else if b == 16 then 0 else if b == 17 then 1 else if b == 20 then 2
      else if b == 23 then 3 else 4
    else if r == TIMEOUT then if b == 4 then 5 else if b == 0 then 6 else 7
    else if r == CLK then 8
    else if r == PHY then if b == 0 then 9 else if b == 4 then 10 else if b == 8 then 11 else if b == 12 then 24 else 28
    else if r == STATUS then 13
    else if b == 10 then 14 else if b == 7 then 15
    else if b % 4 == 2 then 16 + (b - 18) / 4 else 20 + (b - 19) / 4
  }

  lemma Located(e: nat)
    requires IsError(e)
    ensures ErrorAt(RegOf(e), BitOf(e)) == e && BitOf(e) < 32
  {
  }

  type Regs = seq<Word>

  predicate All(regs: Regs) {
    |regs| == 6
  }

  predicate Active(regs: Regs, e: nat)
    requires All(regs)
  {
    IsError(e) && BitOf(e) in regs[RegOf(e)]
  }

  predicate Listed(e: int, errors: Word) {
    e >= 0 && IsError(e) && e in errors
  }

  /** The errors among `done` that are active. */
  ghost predicate Lists(errors: Word, regs: Regs, done: Word)
    requires All(regs)
  {
    forall e :: e in errors <==> e in done && Active(regs, e)
  }

  /** The errors that are active. */
  ghost predicate Reports(errors: Word, regs: Regs)
    requires All(regs)
  {
    forall e :: e in errors <==> Active(regs, e)
  }

  /** The bits of register r that stand for errors of the list that are among `done`. */
  ghost predicate Selects(w: Word, errors: Word, r: nat, done: Word) {
    (forall b :: b in w ==> exists e :: e in errors && e in done && BitOf(e) == b) &&
    (forall e :: e in done ==> IsError(e) && RegOf(e) == r) &&
    forall e :: e in errors && e in done ==> BitOf(e) in w
  }

  // The errors of each register.
  const PHY_ERRORS: Word := {9, 10, 11, 24, 28}
  const FIFO_ERRORS: Word := {14, 15, 16, 17, 18, 19, 20, 21, 22, 23}
  const ACK_ERRORS: Word := {0, 1, 2, 3, 4, 12}
  const TIMEOUT_ERRORS: Word := {5, 6, 7}

  function ErrorsOf(r: nat): Word {
    if r == PHY then PHY_ERRORS else if r == FIFO then FIFO_ERRORS else if r == ACK then ACK_ERRORS
    else if r == TIMEOUT then TIMEOUT_ERRORS else if r == CLK then {8} else {13}
  }

  lemma OwnError(e: nat, r: nat)
    requires r < 6
    ensures e in ErrorsOf(r) <==> IsError(e) && RegOf(e) == r
  {
  }

  /** All 26 errors have been looked at. */
  lemma AllDone(done: Word, regs: Regs)
    requires All(regs) && ErrorsOf(PHY) <= done && ErrorsOf(FIFO) <= done && ErrorsOf(ACK) <= done
    requires ErrorsOf(TIMEOUT) <= done && ErrorsOf(CLK) <= done && ErrorsOf(STATUS) <= done
    ensures forall e :: Active(regs, e) ==> e in done
  {
    forall e | Active(regs, e)
      ensures e in done
    {
      OwnError(e, RegOf(e));
    }
  }

  /** Clearing removes the error exactly if it was in the list. */
  ghost predicate ClearedBy(regs': Regs, regs: Regs, errors: Word)
    requires All(regs) && All(regs')
  {
    forall e :: Active(regs', e) <==> Active(regs, e) && e !in errors
  }

  /** Where each error is reported: the bit of its register. */
  lemma ErrorBits(regs: Regs)
    requires All(regs)
    ensures var ack := regs[ACK];
            (Active(regs, 0) <==> 16 in ack) && (Active(regs, 1) <==> 17 in ack) &&
            (Active(regs, 2) <==> 20 in ack) && (Active(regs, 3) <==> 23 in ack) &&
            (Active(regs, 4) <==> 24 in ack) && (Active(regs, 12) <==> 15 in ack)
    ensures var timeout := regs[TIMEOUT];
            (Active(regs, 5) <==> 4 in timeout) && (Active(regs, 6) <==> 0 in timeout) &&
            (Active(regs, 7) <==> 8 in timeout)
    ensures (Active(regs, 8) <==> 16 in regs[CLK]) && (Active(regs, 13) <==> 31 in regs[STATUS])
    ensures var phy := regs[PHY];
            (Active(regs, 9) <==> 0 in phy) && (Active(regs, 10) <==> 4 in phy) && (Active(regs, 11) <==> 8 in phy) &&
            (Active(regs, 24) <==> 12 in phy) && (Active(regs, 28) <==> 16 in phy)
    ensures var fifo := regs[FIFO];
            (Active(regs, 14) <==> 10 in fifo) && (Active(regs, 15) <==> 7 in fifo) &&
            (Active(regs, 16) <==> 18 in fifo) && (Active(regs, 17) <==> 22 in fifo) &&
            (Active(regs, 18) <==> 26 in fifo) && (Active(regs, 19) <==> 30 in fifo) &&
            (Active(regs, 20) <==> 19 in fifo) && (Active(regs, 21) <==> 23 in fifo) &&
            (Active(regs, 22) <==> 27 in fifo) && (Active(regs, 23) <==> 31 in fifo)
    ensures forall e :: Active(regs, e) ==> e <= 24 || e == 28
  {
  }

  class Status {
    var regs: Regs
    // Ones have been written only to bits that were set.
    ghost var tidy: bool

    ghost predicate Valid()
      reads this
    {
      All(regs)
    }

    constructor (regs: Regs)
      requires All(regs)
      ensures this.regs == regs && tidy && Valid()
    {
      this.regs, tidy := regs, true;
    }

    /** if (reg & BIT(b)) errors |= BIT(e). */
    method Note(errors: Word, reg: Word, b: nat, e: nat, ghost done: Word) returns (errors': Word)
      requires Valid() && IsError(e) && BitOf(e) == b && regs[RegOf(e)] == reg && Lists(errors, regs, done)
      ensures Lists(errors', regs, done + {e})
    {
      errors' := if b in reg then errors + {e} else errors;
    }

    method NotePhy(errors: Word, ghost done: Word) returns (errors': Word)
      requires Valid() && Lists(errors, regs, done)
      ensures Lists(errors', regs, done + ErrorsOf(PHY))
    {
      var reg := regs[PHY];
      errors' := Note(errors, reg, 0, 9, done);
      errors' := Note(errors', reg, 4, 10, done + {9});
      errors' := Note(errors', reg, 8, 11, done + {9, 10});
      errors' := Note(errors', reg, 12, 24, done + {9, 10, 11});
      errors' := Note(errors', reg, 16, 28, done + {9, 10, 11, 24});
    }

    method NoteFifoFirst(errors: Word, ghost done: Word) returns (errors': Word)
      requires Valid() && Lists(errors, regs, done)
      ensures Lists(errors', regs, done + {15, 14, 16, 20, 17})
    {
      var reg := regs[FIFO];
      errors' := Note(errors, reg, 7, 15, done);
      errors' := Note(errors', reg, 10, 14, done + {15});
      errors' := Note(errors', reg, 18, 16, done + {15, 14});
      errors' := Note(errors', reg, 19, 20, done + {15, 14, 16});
      errors' := Note(errors', reg, 22, 17, done + {15, 14, 16, 20});
    }

    method NoteFifoRest(errors: Word, ghost done: Word) returns (errors': Word)
      requires Valid() && Lists(errors, regs, done)
      ensures Lists(errors', regs, done + {21, 18, 22, 19, 23})
    {
      var reg := regs[FIFO];
      errors' := Note(errors, reg, 23, 21, done);
      errors' := Note(errors', reg, 26, 18, done + {21});
      errors' := Note(errors', reg, 27, 22, done + {21, 18});
      errors' := Note(errors', reg, 30, 19, done + {21, 18, 22});
      errors' := Note(errors', reg, 31, 23, done + {21, 18, 22, 19});
    }

    method NoteFifo(errors: Word, ghost done: Word) returns (errors': Word)
      requires Valid() && Lists(errors, regs, done)
      ensures Lists(errors', regs, done + ErrorsOf(FIFO))
    {
      errors' := NoteFifoFirst(errors, done);
      errors' := NoteFifoRest(errors', done + {15, 14, 16, 20, 17});
      assert (done + {15, 14, 16, 20, 17}) + {21, 18, 22, 19, 23} == done + ErrorsOf(FIFO);
    }

    method NoteAck(errors: Word, ghost done: Word) returns (errors': Word)
      requires Valid() && Lists(errors, regs, done)
      ensures Lists(errors', regs, done + ErrorsOf(ACK))
    {
      var reg := regs[ACK];
      errors' := Note(errors, reg, 16, 0, done);
      errors' := Note(errors', reg, 17, 1, done + {0});
      errors' := Note(errors', reg, 20, 2, done + {0, 1});
      errors' := Note(errors', reg, 23, 3, done + {0, 1, 2});
      errors' := Note(errors', reg, 24, 4, done + {0, 1, 2, 3});
      errors' := Note(errors', reg, 15, 12, done + {0, 1, 2, 3, 4});
    }

    method NoteTimeout(errors: Word, ghost done: Word) returns (errors': Word)
      requires Valid() && Lists(errors, regs, done)
      ensures Lists(errors', regs, done + ErrorsOf(TIMEOUT))
    {
      var reg := regs[TIMEOUT];
      errors' := Note(errors, reg, 0, 6, done);
      errors' := Note(errors', reg, 4, 5, done + {6});
      errors' := Note(errors', reg, 8, 7, done + {6, 5});
    }

    method NoteClk(errors: Word, ghost done: Word) returns (errors': Word)
      requires Valid() && Lists(errors, regs, done)
      ensures Lists(errors', regs, done + ErrorsOf(CLK))
    {
      errors' := Note(errors, regs[CLK], 16, 8, done);
    }

    method NoteStatus(errors: Word, ghost done: Word) returns (errors': Word)
      requires Valid() && Lists(errors, regs, done)
      ensures Lists(errors', regs, done + ErrorsOf(STATUS))
    {
      errors' := Note(errors, regs[STATUS], 31, 13, done);
    }

    /** get_error_status: the active errors. */
    method GetErrorStatus() returns (errors: Word)
      requires Valid()
      ensures Reports(errors, regs)
    {
      hide ErrorsOf, RegOf, BitOf, IsError, Active;
      ghost var d1 := {} + ErrorsOf(PHY);
      ghost var d2 := d1 + ErrorsOf(FIFO);
      ghost var d3 := d2 + ErrorsOf(ACK);
      ghost var d4 := d3 + ErrorsOf(TIMEOUT);
      ghost var d5 := d4 + ErrorsOf(CLK);
      errors := NotePhy({}, {});
      errors := NoteFifo(errors, d1);
      errors := NoteAck(errors, d2);
      errors := NoteTimeout(errors, d3);
      errors := NoteClk(errors, d4);
      errors := NoteStatus(errors, d5);
      AllDone(d5 + ErrorsOf(STATUS), regs);
    }

    /** if (errors & BIT(e)) word |= BIT(b). */
    method Mark(word: Word, errors: Word, e: nat, b: nat, ghost r: nat, ghost done: Word) returns (word': Word)
      requires IsError(e) && RegOf(e) == r && BitOf(e) == b && Selects(word, errors, r, done)
      ensures Selects(word', errors, r, done + {e})
    {
      word' := if e in errors then word + {b} else word;
      forall x | x in word'
        ensures exists d :: d in errors && d in done + {e} && BitOf(d) == x
      {
        if x in word {
          var d :| d in errors && d in done && BitOf(d) == x;
          assert d in done + {e};
        } else {
          assert e in errors && e in done + {e} && BitOf(e) == x;
        }
      }
    }

    method AckBits(errors: Word) returns (word': Word)
      ensures Selects(word', errors, ACK, ErrorsOf(ACK))
    {
      word' := Mark({}, errors, 0, 16, ACK, {});
      word' := Mark(word', errors, 1, 17, ACK, {0});
      word' := Mark(word', errors, 2, 20, ACK, {0, 1});
      word' := Mark(word', errors, 3, 23, ACK, {0, 1, 2});
      word' := Mark(word', errors, 4, 24, ACK, {0, 1, 2, 3});
      word' := Mark(word', errors, 12, 15, ACK, {0, 1, 2, 3, 4});
    }

    method TimeoutBits(errors: Word) returns (word': Word)
      ensures Selects(word', errors, TIMEOUT, ErrorsOf(TIMEOUT))
    {
      word' := Mark({}, errors, 5, 4, TIMEOUT, {});
      word' := Mark(word', errors, 6, 0, TIMEOUT, {5});
      word' := Mark(word', errors, 7, 8, TIMEOUT, {5, 6});
    }

    method PhyBits(errors: Word) returns (word': Word)
      ensures Selects(word', errors, PHY, ErrorsOf(PHY))
    {
      word' := Mark({}, errors, 24, 12, PHY, {});
      word' := Mark(word', errors, 28, 16, PHY, {24});
      word' := Mark(word', errors, 9, 0, PHY, {24, 28});
      word' := Mark(word', errors, 10, 4, PHY, {24, 28, 9});
      word' := Mark(word', errors, 11, 8, PHY, {24, 28, 9, 10});
    }

    method FifoBitsFirst(errors: Word) returns (word': Word)
      ensures Selects(word', errors, FIFO, {14, 15, 16, 17, 18})
    {
      word' := Mark({}, errors, 14, 10, FIFO, {});
      word' := Mark(word', errors, 15, 7, FIFO, {14});
      word' := Mark(word', errors, 16, 18, FIFO, {14, 15});
      word' := Mark(word', errors, 17, 22, FIFO, {14, 15, 16});
      word' := Mark(word', errors, 18, 26, FIFO, {14, 15, 16, 17});
    }

    method FifoBitsSecond(word: Word, errors: Word, ghost done: Word) returns (word': Word)
      requires Selects(word, errors, FIFO, done)
      ensures Selects(word', errors, FIFO, done + {19, 20, 21})
    {
      word' := Mark(word, errors, 19, 30, FIFO, done);
      word' := Mark(word', errors, 20, 19, FIFO, done + {19});
      word' := Mark(word', errors, 21, 23, FIFO, done + {19, 20});
    }

    method FifoBitsLast(word: Word, errors: Word, ghost done: Word) returns (word': Word)
      requires Selects(word, errors, FIFO, done)
      ensures Selects(word', errors, FIFO, done + {22, 23})
    {
      word' := Mark(word, errors, 22, 27, FIFO, done);
      word' := Mark(word', errors, 23, 31, FIFO, done + {22});
    }

    method FifoBits(errors: Word) returns (word': Word)
      ensures Selects(word', errors, FIFO, ErrorsOf(FIFO))
    {
      word' := FifoBitsFirst(errors);
      word' := FifoBitsSecond(word', errors, {14, 15, 16, 17, 18});
      word' := FifoBitsLast(word', errors, {14, 15, 16, 17, 18} + {19, 20, 21});
      assert {14, 15, 16, 17, 18} + {19, 20, 21} + {22, 23} == ErrorsOf(FIFO);
    }

    method ClkBits(errors: Word) returns (word': Word)
      ensures Selects(word', errors, CLK, ErrorsOf(CLK))
    {
      word' := Mark({}, errors, 8, 16, CLK, {});
    }

    method StatusBits(errors: Word) returns (word': Word)
      ensures Selects(word', errors, STATUS, ErrorsOf(STATUS))
    {
      word' := Mark({}, errors, 13, 31, STATUS, {});
    }

    /** Ones written clear bits. */
    method Write(r: nat, w: Word)
      requires Valid() && r < 6
      modifies this
      ensures Valid() && regs == old(regs)[r := old(regs)[r] - w] && tidy == (old(tidy) && w <= old(regs)[r])
    {
      tidy := tidy && w <= regs[r];
      regs := regs[r := regs[r] - w];
    }

    /** The writes of clear_error_status. */
    method WriteAll(phy: Word, fifo: Word, ack: Word, timeout: Word, clk: Word, status: Word, ghost ws: Regs)
      requires Valid() && All(ws) && ws[PHY] == phy && ws[FIFO] == fifo && ws[ACK] == ack && ws[TIMEOUT] == timeout
      requires ws[CLK] == clk && ws[STATUS] == status
      modifies this
      ensures Valid() && Without(regs, old(regs), ws) && tidy == (old(tidy) && Within(ws, old(regs)))
    {
      Write(PHY, phy);
      Write(FIFO, fifo);
      Write(ACK, ack);
      Write(ACK, {});
      Write(TIMEOUT, timeout);
      Write(CLK, clk);
      Write(STATUS, status);
    }

    /** clear_error_status: exactly the errors in the list are no longer active, no other
        status bit changes, and ones go only to set bits exactly if all of them were active. */
    method ClearErrorStatus(errors: Word)
      requires Valid()
      modifies this
      ensures Valid() && ClearedBy(regs, old(regs), errors)
      ensures forall r, b :: 0 <= r < 6 && b in regs[r] ==> b in old(regs)[r]
      ensures forall r, b :: 0 <= r < 6 && b in old(regs)[r] && b !in regs[r] ==> Listed(ErrorAt(r, b), errors)
      ensures tidy <==> old(tidy) && forall e :: e in errors && IsError(e) ==> Active(old(regs), e)
    {
      hide ErrorsOf, RegOf, BitOf, ErrorAt, IsError, Active, Selects;
      var ack := AckBits(errors);
      var timeout := TimeoutBits(errors);
      var clk := ClkBits(errors);
      var phy := PhyBits(errors);
      var fifo := FifoBits(errors);
      var status := StatusBits(errors);
      ghost var ws := [phy, fifo, ack, timeout, clk, status];
      assert WordsOf(ws, errors);
      ghost var before := regs;
      WriteAll(phy, fifo, ack, timeout, clk, status, ws);
      Clears(regs, before, ws, errors);
    }

    /** An interrupt's worth of work: read, clear what was read, read again. */
    method ReadClearRead() returns (first: Word, second: Word)
      requires Valid()
      modifies this
      ensures Valid() && Reports(first, old(regs)) && second == {} && tidy == old(tidy)
      ensures forall r, b :: 0 <= r < 6 && b in old(regs)[r] && b !in regs[r] ==> Listed(ErrorAt(r, b), first)
    {
      first := GetErrorStatus();
      ClearErrorStatus(first);
      second := GetErrorStatus();
    }
  }

  ghost predicate Without(regs': Regs, regs: Regs, ws: Regs) {
    All(regs') && All(regs) && All(ws) && forall r :: 0 <= r < 6 ==> regs'[r] == regs[r] - ws[r]
  }

  ghost predicate Within(ws: Regs, regs: Regs) {
    All(regs) && All(ws) && forall r :: 0 <= r < 6 ==> ws[r] <= regs[r]
  }

  /** The word of each register has the bits of the listed errors. */
  ghost predicate WordsOf(ws: Regs, errors: Word) {
    All(ws) && forall r :: 0 <= r < 6 ==> Selects(ws[r], errors, r, ErrorsOf(r))
  }

  /** The bit of an error is selected exactly when the error is listed. */
  lemma SelectedIff(ws: Regs, errors: Word, e: nat)
    requires WordsOf(ws, errors) && IsError(e)
    ensures BitOf(e) in ws[RegOf(e)] <==> e in errors
  {
    var r := RegOf(e);
    OwnError(e, r);
    if BitOf(e) in ws[r] {
      var d :| d in errors && d in ErrorsOf(r) && BitOf(d) == BitOf(e);
      OwnError(d, r);
      Located(d);
      Located(e);
    }
  }

  lemma SelectedBit(ws: Regs, errors: Word, r: nat, b: nat)
    requires r < 6 && WordsOf(ws, errors) && b in ws[r]
    ensures var e := ErrorAt(r, b); e >= 0 && IsError(e) && e in errors && RegOf(e) == r && BitOf(e) == b
  {
    var d :| d in errors && d in ErrorsOf(r) && BitOf(d) == b;
    OwnError(d, r);
    Located(d);
  }

  lemma Clears(regs': Regs, regs: Regs, ws: Regs, errors: Word)
    requires WordsOf(ws, errors) && Without(regs', regs, ws)
    ensures ClearedBy(regs', regs, errors)
    ensures forall r, b :: 0 <= r < 6 && b in regs'[r] ==> b in regs[r]
    ensures forall r, b :: 0 <= r < 6 && b in regs[r] && b !in regs'[r] ==> Listed(ErrorAt(r, b), errors)
    ensures Within(ws, regs) <==> forall e :: e in errors && IsError(e) ==> Active(regs, e)
  {
    forall e
      ensures Active(regs', e) <==> Active(regs, e) && e !in errors
    {
      if IsError(e) {
        SelectedIff(ws, errors, e);
      }
    }
    forall r: nat, b | r < 6 && b in regs[r] && b !in regs'[r]
      ensures Listed(ErrorAt(r, b), errors)
    {
      SelectedBit(ws, errors, r, b);
    }
    WithinIff(regs, ws, errors);
  }

  lemma WithinIff(regs: Regs, ws: Regs, errors: Word)
    requires WordsOf(ws, errors) && All(regs)
    ensures Within(ws, regs) <==> forall e :: e in errors && IsError(e) ==> Active(regs, e)
  {
    if Within(ws, regs) {
      forall e | e in errors && IsError(e)
        ensures Active(regs, e)
      {
        SelectedIff(ws, errors, e);
      }
    }
    if forall e :: e in errors && IsError(e) ==> Active(regs, e) {
      forall r: nat, b | r < 6 && b in ws[r]
        ensures b in regs[r]
      {
        SelectedBit(ws, errors, r, b);
        assert Active(regs, ErrorAt(r, b));
      }
      assert forall r :: 0 <= r < 6 ==> ws[r] <= regs[r];
    }
  }
}
