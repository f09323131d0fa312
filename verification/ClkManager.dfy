// The clock manager: the votes of its clients fold into one state for the core
// clocks and one for the link clocks, and every change of those states drives the
// clocks of all controllers and the four callbacks.

module ClkManager {
  import opened ClkHw

  datatype ClkState = OFF | ON | EARLY_GATE

  datatype When = PreOn | PostOn | PreOff | PostOff
  datatype Domain = CORE | LINK

  /** One call of a callback. */
  datatype Callback = Callback(when: When, domain: Domain, l: LinkType, state: ClkState)

  // ---------------------------------------------------------------------
  // What the callbacks of a transition are
  // ---------------------------------------------------------------------

  function CoreOnCalls(from: ClkState): seq<Callback> {
    (if from == OFF then [Callback(PreOn, CORE, NONE, ON)] else []) + [Callback(PostOn, CORE, NONE, ON)]
  }

  function CoreOffCalls(to: ClkState): seq<Callback> {
    [Callback(PreOff, CORE, NONE, to)] + (if to == OFF then [Callback(PostOff, CORE, NONE, OFF)] else [])
  }

  function LinkOnCalls(l: LinkType): seq<Callback> {
    [Callback(PreOn, LINK, l, ON), Callback(PostOn, LINK, l, ON)]
  }

  function LinkOffCalls(l: LinkType, to: ClkState): seq<Callback> {
    [Callback(PreOff, LINK, l, to), Callback(PostOff, LINK, l, to)]
  }

  /** Up: low power before high speed.  Down: the other way round. */
  function LinkCalls(to: ClkState): seq<Callback> {
    if to == ON then LinkOnCalls(LP) + LinkOnCalls(HS) else LinkOffCalls(HS, to) + LinkOffCalls(LP, to)
  }

  /** Whether a callback sequence leaves the core powered: it is powered up by the
      pre-clock-on callback and down by the post-clock-off callback of the core. */
  datatype Power = Power(strict: bool, on: bool)

  function PowerAfter(cbs: seq<Callback>): Power {
    if cbs == [] then Power(true, false)
    else
      var p := PowerAfter(cbs[..|cbs| - 1]);
      var c := cbs[|cbs| - 1];
      if c.domain == CORE && c.when == PreOn then Power(p.strict && !p.on, true)
      else if c.domain == CORE && c.when == PostOff then Power(p.strict && p.on, false)
      else p
  }

  lemma {:induction false} PowerStep(cbs: seq<Callback>, more: seq<Callback>)
    ensures |more| == 1 ==>
      PowerAfter(cbs + more) ==
        var p := PowerAfter(cbs);
        var c := more[0];
        if c.domain == CORE && c.when == PreOn then Power(p.strict && !p.on, true)
        else if c.domain == CORE && c.when == PostOff then Power(p.strict && p.on, false)
        else p
  {
    if |more| == 1 {
      assert (cbs + more)[..|cbs + more| - 1] == cbs;
    }
  }

  lemma {:induction false} PowerConcat(cbs: seq<Callback>, more: seq<Callback>)
    requires forall c :: c in more ==> c.domain == LINK || c.when == PostOn || c.when == PreOff
    ensures PowerAfter(cbs + more) == PowerAfter(cbs)
  {
    if more == [] {
      assert cbs + more == cbs;
    } else {
      var m := |more| - 1;
      PowerConcat(cbs, more[..m]);
      assert cbs + more == (cbs + more[..m]) + [more[m]];
      PowerStep(cbs + more[..m], [more[m]]);
    }
  }

  lemma PowerUp(cbs: seq<Callback>, from: ClkState)
    ensures var p, q := PowerAfter(cbs), PowerAfter(cbs + CoreOnCalls(from));
            if from == OFF then q == Power(p.strict && !p.on, true) else q == p
  {
    var post := [Callback(PostOn, CORE, NONE, ON)];
    if from == OFF {
      var pre := [Callback(PreOn, CORE, NONE, ON)];
      assert cbs + CoreOnCalls(from) == (cbs + pre) + post;
      PowerStep(cbs, pre);
      PowerConcat(cbs + pre, post);
    } else {
      assert CoreOnCalls(from) == post;
      PowerConcat(cbs, post);
    }
  }

  lemma PowerDown(cbs: seq<Callback>, to: ClkState)
    ensures var p, q := PowerAfter(cbs), PowerAfter(cbs + CoreOffCalls(to));
            if to == OFF then q == Power(p.strict && p.on, false) else q == p
  {
    var pre := [Callback(PreOff, CORE, NONE, to)];
    PowerConcat(cbs, pre);
    if to == OFF {
      var post := [Callback(PostOff, CORE, NONE, OFF)];
      assert cbs + CoreOffCalls(to) == (cbs + pre) + post;
      PowerStep(cbs + pre, post);
    } else {
      assert CoreOffCalls(to) == pre;
    }
  }

  // ---------------------------------------------------------------------
  // Votes
  // ---------------------------------------------------------------------

  function Rank(s: ClkState): nat {
    match s
    case OFF => 0
    case EARLY_GATE => 1
    case ON => 2
  }

  /** m is the maximum of the votes under OFF < EARLY_GATE < ON; of none it is OFF. */
  ghost predicate IsJoin(m: ClkState, votes: seq<ClkState>) {
    (forall i :: 0 <= i < |votes| ==> Rank(votes[i]) <= Rank(m)) && (m == OFF || m in votes)
  }

  lemma JoinUnique(a: ClkState, b: ClkState, votes: seq<ClkState>)
    requires IsJoin(a, votes) && IsJoin(b, votes)
    ensures a == b
  {
  }

  /** Some ON makes it ON; without one, some EARLY_GATE makes it EARLY_GATE. */
  lemma JoinIs(m: ClkState, votes: seq<ClkState>)
    ensures IsJoin(m, votes) <==> m == if ON in votes then ON else if EARLY_GATE in votes then EARLY_GATE else OFF
  {
    if IsJoin(m, votes) {
      assert ON in votes ==> m == ON;
      assert EARLY_GATE in votes ==> m != OFF;
    }
  }

  /** One vote changed, and not from OFF to EARLY_GATE: a manager that was OFF is not gated. */
  lemma OneVoteMoved(m: ClkState, before: seq<ClkState>, after: seq<ClkState>, i: nat)
    requires IsJoin(m, before) && i < |before| == |after|
    requires forall j :: 0 <= j < |before| && j != i ==> after[j] == before[j]
    requires after[i] == EARLY_GATE ==> before[i] != OFF
    ensures m == OFF ==> EARLY_GATE !in after
    ensures after[i] == before[i] ==> after == before
  {
  }

  /** A further vote for OFF changes nothing. */
  lemma OffVoteIsIdle(m: ClkState, votes: seq<ClkState>)
    requires IsJoin(m, votes)
    ensures IsJoin(m, [OFF] + votes)
  {
  }

  /** Taking one away does not either. */
  lemma OffVoteMayGo(m: ClkState, votes: seq<ClkState>, i: nat)
    requires IsJoin(m, votes) && i < |votes| && votes[i] == OFF
    ensures IsJoin(m, votes[..i] + votes[i + 1..])
  {
    var w := votes[..i] + votes[i + 1..];
    if m != OFF {
      var j :| 0 <= j < |votes| && votes[j] == m;
      assert w[if j < i then j else j - 1] == m;
    }
  }

  /** Votes without EARLY_GATE, with a link vote only beside a core vote, join likewise. */
  lemma PlainJoins(core: ClkState, link: ClkState, coreVotes: seq<ClkState>, linkVotes: seq<ClkState>)
    requires IsJoin(core, coreVotes) && IsJoin(link, linkVotes)
    requires EARLY_GATE !in coreVotes && EARLY_GATE !in linkVotes && (ON in linkVotes ==> ON in coreVotes)
    ensures core != EARLY_GATE && link != EARLY_GATE && (link == ON ==> core == ON)
  {
    if link == ON {
      var i :| 0 <= i < |coreVotes| && coreVotes[i] == ON;
      assert Rank(coreVotes[i]) <= Rank(core);
    }
  }

  /** The loops of dsi_recheck_clk_state over the clients' states. */
  method Fold(votes: seq<ClkState>) returns (m: ClkState)
    ensures IsJoin(m, votes)
  {
    m := OFF;
    var i := 0;
    while i < |votes|
      invariant 0 <= i <= |votes|
      invariant IsJoin(m, votes[..i]) && m != ON
    {
      if votes[i] == ON {
        m := ON;
        return;
      } else if votes[i] == EARLY_GATE {
        m := EARLY_GATE;
      }
      i := i + 1;
    }
    assert votes[..i] == votes;
  }

  /** One client's standing with one kind of clock: a 32-bit count and a state. */
  datatype Vote = Vote(refs: nat, state: ClkState) {
    predicate Ok() {
      refs < 0x1_0000_0000 && (refs > 0 <==> state == ON)
    }
  }

  /** The vote after a request, and whether the state changed. */
  function Requested(v: Vote, s: ClkState): (Vote, bool) {
    if s == ON then (Vote((v.refs + 1) % 0x1_0000_0000, ON), v.state != ON)
    else if v.refs == 0 then
      if v.state == EARLY_GATE && s == OFF then (Vote(0, OFF), true) else (v, false)
    else if v.refs == 1 then (Vote(0, s), true)
    else (Vote(v.refs - 1, v.state), false)
  }

  /** v' is v after a request for s, in numbers: one reference more, modulo 2^32; one less if
      there is any, and the state falls with the last; none, and at most EARLY_GATE becomes OFF. */
  ghost predicate Recounted(v: Vote, v': Vote, s: ClkState) {
    (s == ON ==> v'.refs == (v.refs + 1) % 0x1_0000_0000 && v'.state == ON) &&
    (s != ON && v.refs > 0 ==> v'.refs == v.refs - 1 && v'.state == if v.refs == 1 then s else v.state) &&
    (s != ON && v.refs == 0 ==>
      v'.refs == 0 && v'.state == if v.state == EARLY_GATE && s == OFF then OFF else v.state)
  }

  /** A vote after k requests for s. */
  function Times(v: Vote, s: ClkState, k: nat): Vote {
    if k == 0 then v else Requested(Times(v, s, k - 1), s).0
  }

  /** References add up, and come off one at a time; the state falls with the last. */
  lemma {:induction false} OnsThenOffs(k: nat, s: ClkState, m: nat)
    requires 0 < k < 0x1_0000_0000 && m <= k && s != ON
    ensures Times(Vote(0, OFF), ON, k) == Vote(k, ON)
    ensures Times(Vote(k, ON), s, m) == Vote(k - m, if m < k then ON else s)
  {
    if m > 0 {
      OnsThenOffs(k, s, m - 1);
    } else if k > 1 {
      OnsThenOffs(k - 1, s, 0);
    }
  }

  /** Counting keeps "referenced exactly when ON" for every request but the ON that wraps
      the count. */
  lemma RequestKeepsVote(v: Vote, s: ClkState)
    requires v.Ok()
    ensures Requested(v, s).0.Ok() <==> !(s == ON && v.refs == 0xFFFF_FFFF)
    ensures !(s == ON && v.refs == 0xFFFF_FFFF) ==> (Requested(v, s).1 <==> Requested(v, s).0.state != v.state)
    ensures !(s == ON && v.refs == 0xFFFF_FFFF) && Requested(v, s).0.state == EARLY_GATE ==> v.state != OFF
  {
  }

  // ---------------------------------------------------------------------
  // Runs, as far as the votes go
  // ---------------------------------------------------------------------

  // Clients are named by their place in the list; a new client goes to its head.
  datatype Op =
    | Register
    | Request(i: nat, clk: nat, state: ClkState)
    | Deregister(i: nat)
    | ForceUpdate

  const IDLE := Client(Vote(0, OFF), Vote(0, OFF))

  function Without(cs: seq<Client>, i: nat): seq<Client>
    requires i < |cs|
  {
    cs[..i] + cs[i + 1..]
  }

  function StepVotes(cs: seq<Client>, op: Op): seq<Client> {
    match op
    case Register => [IDLE] + cs
    case Request(i, clk, state) =>
      if i < |cs| && 1 <= clk <= 3 then cs[i := AfterRequest(cs[i], clk, state)] else cs
    case Deregister(i) => if i < |cs| then Without(cs, i) else cs
    case ForceUpdate => cs
  }

  lemma StepVotesOf(cs: seq<Client>, op: Op)
    ensures op.ForceUpdate? ==> StepVotes(cs, op) == cs
    ensures op.Register? ==> StepVotes(cs, op) == [IDLE] + cs
    ensures op.Request? && op.i < |cs| && 1 <= op.clk <= 3 ==>
      StepVotes(cs, op) == cs[op.i := AfterRequest(cs[op.i], op.clk, op.state)]
    ensures op.Request? && !(op.i < |cs| && 1 <= op.clk <= 3) ==> StepVotes(cs, op) == cs
    ensures op.Deregister? ==> StepVotes(cs, op) == if op.i < |cs| then Without(cs, op.i) else cs
  {
  }

  /** The clients after a run. */
  function RunVotes(ops: seq<Op>): seq<Client> {
    if ops == [] then [] else StepVotes(RunVotes(ops[..|ops| - 1]), ops[|ops| - 1])
  }

  /** Whether a request for clk is about the core clocks, or about the link clocks. */
  predicate Names(clk: nat, d: Domain) {
    clk == 3 || clk == if d == CORE then 1 else 2
  }

  function VoteOf(c: Client, d: Domain): Vote {
    if d == CORE then c.core else c.link
  }

  /** The number of clients after a run. */
  function Clients(ops: seq<Op>): nat {
    if ops == [] then 0
    else
      var n := Clients(ops[..|ops| - 1]);
      match ops[|ops| - 1]
      case Register => n + 1
      case Deregister(i) => if i < n then n - 1 else n
      case _ => n
  }

  /** The place that client i has had before the last operation of a run, or -1 if it is new. */
  function Before(ops: seq<Op>, i: nat): int
    requires ops != []
  {
    match ops[|ops| - 1]
    case Register => i - 1
    case Deregister(j) => if j < Clients(ops[..|ops| - 1]) && j <= i then i + 1 else i
    case _ => i
  }

  /** Of the client i after a run: its ON requests for one kind of clock, less the requests for
      another state that found a reference. */
  function Refs(ops: seq<Op>, i: nat, d: Domain): nat {
    if ops == [] || Before(ops, i) < 0 then 0
    else
      var op, n := ops[|ops| - 1], Refs(ops[..|ops| - 1], Before(ops, i), d);
      if !(op.Request? && op.i == i && Names(op.clk, d)) then n
      else if op.state == ON then n + 1
      else if n > 0 then n - 1
      else 0
  }

  /** Its state while it has no references: the one asked for when the last reference went,
      or OFF once that has been asked for. */
  function Parked(ops: seq<Op>, i: nat, d: Domain): (s: ClkState)
    ensures s != ON
  {
    if ops == [] || Before(ops, i) < 0 then OFF
    else
      var past, op, j := ops[..|ops| - 1], ops[|ops| - 1], Before(ops, i);
      if !(op.Request? && op.i == i && Names(op.clk, d)) || op.state == ON then Parked(past, j, d)
      else if Refs(past, j, d) == 1 || (Refs(past, j, d) == 0 && op.state == OFF) then op.state
      else Parked(past, j, d)
  }

  /** The counts and states of a run. */
  lemma {:induction false} RunCounts(ops: seq<Op>, i: nat, d: Domain)
    requires Countable(ops)
    ensures |RunVotes(ops)| == Clients(ops)
    ensures i < Clients(ops) ==> Refs(ops, i, d) < 0x1_0000_0000
    ensures i < Clients(ops) ==>
      VoteOf(RunVotes(ops)[i], d) == Vote(Refs(ops, i, d), if Refs(ops, i, d) > 0 then ON else Parked(ops, i, d))
  {
    if ops != [] {
      var past, op := ops[..|ops| - 1], ops[|ops| - 1];
      var j := Before(ops, i);
      RunCounts(past, if j < 0 then 0 else j, d);
      StepVotesOf(RunVotes(past), op);
      if op.Request? && op.i < |RunVotes(past)| && 1 <= op.clk <= 3 {
        StepCounts(RunVotes(past)[op.i], op.clk, op.state, d);
      }
    }
  }

  lemma StepCounts(c: Client, clk: nat, state: ClkState, d: Domain)
    requires 1 <= clk <= 3 && !Wraps(c, clk, state)
    ensures var v, v' := VoteOf(c, d), VoteOf(AfterRequest(c, clk, state), d);
            if !Names(clk, d) then v' == v
            else if state == ON then v.refs < 0xFFFF_FFFF ==> v' == Vote(v.refs + 1, ON)
            else if v.refs > 0 then v' == Vote(v.refs - 1, if v.refs == 1 then state else v.state)
            else v' == Vote(0, if v.state == EARLY_GATE && state == OFF then OFF else v.state)
    ensures Names(clk, d) && state == ON ==> VoteOf(c, d).refs != 0xFFFF_FFFF
  {
  }

  function Again(op: Op, k: nat): seq<Op> {
    if k == 0 then [] else Again(op, k - 1) + [op]
  }

  /** k requests for ON, and then m for s, of a new client. */
  function HoldRun(clk: nat, k: nat, s: ClkState, m: nat): seq<Op> {
    [Register] + Again(Request(0, clk, ON), k) + Again(Request(0, clk, s), m)
  }

  /** They leave k - m references, and with the last one the client's state falls to s. */
  lemma {:induction false} HoldAndRelease(clk: nat, d: Domain, k: nat, s: ClkState, m: nat)
    requires Names(clk, d) && s != ON && m <= k && k > 0
    ensures Refs(HoldRun(clk, k, s, m), 0, d) == k - m
    ensures m == k ==> Parked(HoldRun(clk, k, s, m), 0, d) == s
  {
    var ops := HoldRun(clk, k, s, m);
    if m > 0 {
      HoldAndRelease(clk, d, k, s, m - 1);
      assert ops[..|ops| - 1] == HoldRun(clk, k, s, m - 1) && ops[|ops| - 1] == Request(0, clk, s);
    } else if k > 1 {
      HoldAndRelease(clk, d, k - 1, s, 0);
      assert ops[..|ops| - 1] == HoldRun(clk, k - 1, s, 0) && ops[|ops| - 1] == Request(0, clk, ON);
    } else {
      assert Again(Request(0, clk, ON), 0) == [] && Again(Request(0, clk, s), 0) == [];
      assert ops == [Register, Request(0, clk, ON)] && ops[..1] == [Register] && [Register][..0] == [];
      assert Refs([Register], 0, d) == 0;
    }
  }

  /** No request of the run wraps a reference count. */
  predicate Countable(ops: seq<Op>) {
    ops != [] ==>
      var cs, op := RunVotes(ops[..|ops| - 1]), ops[|ops| - 1];
      Countable(ops[..|ops| - 1]) && (op.Request? && op.i < |cs| ==> !Wraps(cs[op.i], op.clk, op.state))
  }

  /** After every step of the run all votes are plain, with link votes only beside core votes. */
  predicate PlainRun(ops: seq<Op>) {
    ops != [] ==> PlainRun(ops[..|ops| - 1]) && PlainClients(RunVotes(ops))
  }

  /** The join as a function. */
  function Join(votes: seq<ClkState>): (m: ClkState)
    ensures IsJoin(m, votes)
  {
    if ON in votes then ON else if EARLY_GATE in votes then EARLY_GATE else OFF
  }

  /** How often the link clocks' state goes from EARLY_GATE to OFF in a run. */
  function Gates(ops: seq<Op>): nat {
    if ops == [] then 0
    else
      var past := ops[..|ops| - 1];
      Gates(past) + Gate(Join(LinkVotes(RunVotes(past))), Join(LinkVotes(RunVotes(ops))))
  }

  lemma {:induction false} NoLinkGates(ops: seq<Op>)
    requires forall k :: 0 <= k < |ops| && ops[k].Request? && ops[k].clk / 2 == 1 ==> ops[k].state != EARLY_GATE
    ensures Gates(ops) == 0 && EARLY_GATE !in LinkVotes(RunVotes(ops))
  {
    if ops != [] {
      var past := ops[..|ops| - 1];
      NoLinkGates(past);
      NoLinkGateStep(RunVotes(past), ops[|ops| - 1]);
    }
  }

  lemma NoLinkGateStep(cs: seq<Client>, op: Op)
    requires EARLY_GATE !in LinkVotes(cs)
    requires op.Request? && op.clk / 2 == 1 ==> op.state != EARLY_GATE
    ensures EARLY_GATE !in LinkVotes(StepVotes(cs, op))
  {
    assert forall i :: 0 <= i < |cs| ==> cs[i].link.state == LinkVotes(cs)[i];
  }

  const GATED_RUN := [Register, Request(0, 2, ON), Request(0, 2, EARLY_GATE), Request(0, 2, OFF)]

  /** A link vote that goes ON, EARLY_GATE, OFF switches the link clocks off once too often. */
  lemma GatedRunOverstops()
    ensures Countable(GATED_RUN) && RunVotes(GATED_RUN) == [IDLE] && Gates(GATED_RUN) == 1
  {
    var a, b, c := GATED_RUN[..1], GATED_RUN[..2], GATED_RUN[..3];
    assert a[..0] == [] && b[..1] == a && c[..2] == b && GATED_RUN[..3] == c;
    assert RunVotes(a) == [IDLE];
    assert RunVotes(b) == [Client(Vote(0, OFF), Vote(1, ON))];
    assert RunVotes(c) == [Client(Vote(0, OFF), Vote(0, EARLY_GATE))];
    assert LinkVotes(RunVotes(a)) == [OFF] && LinkVotes(RunVotes(b)) == [ON];
    assert LinkVotes(RunVotes(c)) == [EARLY_GATE] && LinkVotes(RunVotes(GATED_RUN)) == [OFF];
    assert Countable([]) && Countable(a) && Countable(b) && Countable(c);
    assert Gates([]) == 0 && Gates(a) == 0 && Gates(b) == 0 && Gates(c) == 0;
  }

  /** An idle client joins. */
  lemma IdleJoins(core: ClkState, link: ClkState, cs: seq<Client>)
    requires IsJoin(core, CoreVotes(cs)) && IsJoin(link, LinkVotes(cs)) && Counted(cs)
    ensures IsJoin(core, CoreVotes([IDLE] + cs)) && IsJoin(link, LinkVotes([IDLE] + cs)) && Counted([IDLE] + cs)
    ensures core == OFF ==> EARLY_GATE !in CoreVotes([IDLE] + cs)
    ensures link == OFF ==> EARLY_GATE !in LinkVotes([IDLE] + cs)
    ensures PlainClients(cs) ==> PlainClients([IDLE] + cs)
  {
    assert CoreVotes([IDLE] + cs) == [OFF] + CoreVotes(cs);
    assert LinkVotes([IDLE] + cs) == [OFF] + LinkVotes(cs);
    OffVoteIsIdle(core, CoreVotes(cs));
    OffVoteIsIdle(link, LinkVotes(cs));
  }

  lemma NoVotes(core: ClkState, link: ClkState)
    ensures Counted([]) && PlainClients([]) && EARLY_GATE !in CoreVotes([]) && EARLY_GATE !in LinkVotes([])
    ensures IsJoin(OFF, CoreVotes([])) && IsJoin(OFF, LinkVotes([]))
    ensures IsJoin(core, CoreVotes([])) ==> core == OFF
    ensures IsJoin(link, LinkVotes([])) ==> link == OFF
  {
  }

  /** A client votes OFF, whatever its counts, and then leaves. */
  function Silenced(cs: seq<Client>, i: nat): seq<Client>
    requires i < |cs|
  {
    cs[i := Client(cs[i].core.(state := OFF), cs[i].link.(state := OFF))]
  }

  lemma SilencedGatesNothing(core: ClkState, link: ClkState, cs: seq<Client>, i: nat)
    requires i < |cs| && IsJoin(core, CoreVotes(cs)) && IsJoin(link, LinkVotes(cs))
    ensures core == OFF ==> EARLY_GATE !in CoreVotes(Silenced(cs, i))
    ensures link == OFF ==> EARLY_GATE !in LinkVotes(Silenced(cs, i))
    ensures PlainClients(cs) ==> PlainClients(Silenced(cs, i)) && PlainClients(Without(cs, i))
    ensures Counted(cs) ==> Counted(Without(cs, i))
  {
    OneVoteMoved(core, CoreVotes(cs), CoreVotes(Silenced(cs, i)), i);
    OneVoteMoved(link, LinkVotes(cs), LinkVotes(Silenced(cs, i)), i);
  }

  lemma CoreLeaves(m: ClkState, cs: seq<Client>, i: nat)
    requires i < |cs| && IsJoin(m, CoreVotes(Silenced(cs, i)))
    ensures IsJoin(m, CoreVotes(Without(cs, i)))
  {
    var v := CoreVotes(Silenced(cs, i));
    OffVoteMayGo(m, v, i);
    assert CoreVotes(Without(cs, i)) == v[..i] + v[i + 1..];
  }

  lemma LinkLeaves(m: ClkState, cs: seq<Client>, i: nat)
    requires i < |cs| && IsJoin(m, LinkVotes(Silenced(cs, i)))
    ensures IsJoin(m, LinkVotes(Without(cs, i)))
  {
    var v := LinkVotes(Silenced(cs, i));
    OffVoteMayGo(m, v, i);
    assert LinkVotes(Without(cs, i)) == v[..i] + v[i + 1..];
  }

  // ---------------------------------------------------------------------
  // The manager
  // ---------------------------------------------------------------------

  /** A registered client: its standing with the core clocks and with the link clocks. */
  datatype Client = Client(core: Vote, link: Vote)

  function CoreVotes(cs: seq<Client>): (v: seq<ClkState>)
    ensures |v| == |cs| && forall i :: 0 <= i < |v| ==> v[i] == cs[i].core.state
  {
    seq(|cs|, i requires 0 <= i < |cs| => cs[i].core.state)
  }

  function LinkVotes(cs: seq<Client>): (v: seq<ClkState>)
    ensures |v| == |cs| && forall i :: 0 <= i < |v| ==> v[i] == cs[i].link.state
  {
    seq(|cs|, i requires 0 <= i < |cs| => cs[i].link.state)
  }

  predicate Counted(cs: seq<Client>) {
    forall i :: 0 <= i < |cs| ==> cs[i].core.Ok() && cs[i].link.Ok()
  }

  /** Every client votes plain ON or OFF, with a link vote only beside a core vote. */
  predicate PlainClients(cs: seq<Client>) {
    forall i :: 0 <= i < |cs| ==>
      cs[i].core.state != EARLY_GATE && cs[i].link.state != EARLY_GATE &&
      (cs[i].link.state == ON ==> cs[i].core.state == ON)
  }

  lemma PlainClientsVote(cs: seq<Client>)
    requires PlainClients(cs)
    ensures EARLY_GATE !in CoreVotes(cs) && EARLY_GATE !in LinkVotes(cs)
    ensures ON in LinkVotes(cs) ==> ON in CoreVotes(cs)
  {
    if ON in LinkVotes(cs) {
      var i :| 0 <= i < |cs| && LinkVotes(cs)[i] == ON;
      assert CoreVotes(cs)[i] == ON;
    }
  }

  /** The ON request that would wrap a 32-bit reference count. */
  predicate Wraps(c: Client, clk: nat, state: ClkState) {
    state == ON && ((clk % 2 == 1 && c.core.refs == 0xFFFF_FFFF) || (clk / 2 == 1 && c.link.refs == 0xFFFF_FFFF))
  }

  /** The client after a request; bit 0 of clk names the core clocks, bit 1 the link clocks. */
  function AfterRequest(c: Client, clk: nat, state: ClkState): Client {
    Client(if clk % 2 == 1 then Requested(c.core, state).0 else c.core,
           if clk / 2 == 1 then Requested(c.link, state).0 else c.link)
  }

  /** Whether a request changes a state. */
  function Changes(c: Client, clk: nat, state: ClkState): bool {
    (clk % 2 == 1 && Requested(c.core, state).1) || (clk / 2 == 1 && Requested(c.link, state).1)
  }

  /** A request keeps the counting, gates nothing that is off, and may be ignored unless it
      changes a state. */
  lemma RequestMoves(core: ClkState, link: ClkState, cs: seq<Client>, i: nat, clk: nat, state: ClkState)
    requires IsJoin(core, CoreVotes(cs)) && IsJoin(link, LinkVotes(cs)) && Counted(cs)
    requires i < |cs| && !Wraps(cs[i], clk, state)
    ensures var cs' := cs[i := AfterRequest(cs[i], clk, state)];
            Counted(cs') &&
            (core == OFF ==> EARLY_GATE !in CoreVotes(cs')) && (link == OFF ==> EARLY_GATE !in LinkVotes(cs')) &&
            (!Changes(cs[i], clk, state) ==> IsJoin(core, CoreVotes(cs')) && IsJoin(link, LinkVotes(cs')))
  {
    var cs' := cs[i := AfterRequest(cs[i], clk, state)];
    RequestKeepsVote(cs[i].core, state);
    RequestKeepsVote(cs[i].link, state);
    OneVoteMoved(core, CoreVotes(cs), CoreVotes(cs'), i);
    OneVoteMoved(link, LinkVotes(cs), LinkVotes(cs'), i);
  }

  /** A request counts where it is about, and nowhere else. */
  lemma RequestCounts(c: Client, clk: nat, state: ClkState)
    requires 1 <= clk <= 3
    ensures var c' := AfterRequest(c, clk, state);
            (if clk == 2 then c'.core == c.core else Recounted(c.core, c'.core, state)) &&
            (if clk == 1 then c'.link == c.link else Recounted(c.link, c'.link, state))
  {
  }

  /** The client part of dsi_clk_req_state. */
  method CastVotes(c: Client, clk: nat, state: ClkState) returns (c': Client, changed: bool)
    ensures c' == AfterRequest(c, clk, state) && changed == Changes(c, clk, state)
  {
    c', changed := c, false;
    if clk % 2 == 1 {
      var v;
      v, changed := CastVote(c.core, state);
      c' := c'.(core := v);
    }
    if clk / 2 == 1 {
      var v, b := CastVote(c.link, state);
      c', changed := c'.(link := v), changed || b;
    }
  }

  /** The counting of dsi_clk_req_state for one kind of clock. */
  method CastVote(v: Vote, s: ClkState) returns (v': Vote, changed: bool)
    ensures (v', changed) == Requested(v, s)
    ensures s == ON ==>
      v'.refs == (v.refs + 1) % 0x1_0000_0000 && v'.state == ON && changed == (v.state != ON)
    ensures s != ON && v.refs > 0 ==>
      v'.refs == v.refs - 1 && v'.state == (if v.refs == 1 then s else v.state) && changed == (v.refs == 1)
    ensures s != ON && v.refs == 0 ==>
      v'.refs == 0 && changed == (v.state == EARLY_GATE && s == OFF) && v'.state == if changed then OFF else v.state
  {
    var refs, state := v.refs, v.state;
    changed := false;
    if s == ON {
      refs := (refs + 1) % 0x1_0000_0000;
      if state != ON {
        state, changed := ON, true;
      }
    } else if refs == 0 {
      if state == EARLY_GATE && s == OFF {
        state, changed := OFF, true;
      }
    } else {
      refs := refs - 1;
      if refs == 0 {
        state, changed := s, true;
      }
    }
    v' := Vote(refs, state);
  }

  function Bit(b: bool): int { if b then 1 else 0 }

  /** 1 for a transition from EARLY_GATE to OFF. */
  function Gate(from: ClkState, to: ClkState): nat {
    if from == EARLY_GATE && to == OFF then 1 else 0
  }

  /** The callbacks of a transition from states c, l to c', l'. */
  function Calls(c: ClkState, c': ClkState, l: ClkState, l': ClkState): seq<Callback> {
    UpCalls(c, c') + (if l' != l then LinkCalls(l') else []) + DownCalls(c, c')
  }

  function UpCalls(c: ClkState, c': ClkState): seq<Callback> {
    if c' != c && c' == ON then CoreOnCalls(c) else []
  }

  function DownCalls(c: ClkState, c': ClkState): seq<Callback> {
    if c' != c && c' != ON then CoreOffCalls(c') else []
  }

  /** One by one: core before link, low power before high speed on the way up; the other way
      round on the way down.  Power is asked for before the first clock and dropped after the last. */
  lemma CallsAre(c: ClkState, c': ClkState, l: ClkState, l': ClkState)
    ensures Calls(c, c', l, l') ==
            (if c' == ON && c == OFF then [Callback(PreOn, CORE, NONE, ON)] else []) +
            (if c' == ON && c != ON then [Callback(PostOn, CORE, NONE, ON)] else []) +
            (if l' == l then []
             else if l' == ON then
               [Callback(PreOn, LINK, LP, ON), Callback(PostOn, LINK, LP, ON)] +
               [Callback(PreOn, LINK, HS, ON), Callback(PostOn, LINK, HS, ON)]
             else
               [Callback(PreOff, LINK, HS, l'), Callback(PostOff, LINK, HS, l')] +
               [Callback(PreOff, LINK, LP, l'), Callback(PostOff, LINK, LP, l')]) +
            (if c' != ON && c' != c then [Callback(PreOff, CORE, NONE, c')] else []) +
            (if c' == OFF && c != OFF then [Callback(PostOff, CORE, NONE, OFF)] else [])
  {
  }

  lemma UpFollows(cbs: seq<Callback>, c: ClkState, c': ClkState)
    requires PowerAfter(cbs) == Power(true, c != OFF)
    ensures PowerAfter(cbs + UpCalls(c, c')) == Power(true, c != OFF || c' == ON)
  {
    if c' != c && c' == ON {
      PowerUp(cbs, c);
    } else {
      assert cbs + UpCalls(c, c') == cbs;
    }
  }

  lemma DownFollows(cbs: seq<Callback>, c: ClkState, c': ClkState)
    requires PowerAfter(cbs) == Power(true, c != OFF || c' == ON) && !(c == OFF && c' == EARLY_GATE)
    ensures PowerAfter(cbs + DownCalls(c, c')) == Power(true, c' != OFF)
  {
    if c' != c && c' != ON {
      PowerDown(cbs, c');
    } else {
      assert cbs + DownCalls(c, c') == cbs;
    }
  }

  lemma LinkFollows(cbs: seq<Callback>, l: ClkState, l': ClkState)
    ensures PowerAfter(cbs + if l' != l then LinkCalls(l') else []) == PowerAfter(cbs)
  {
    if l' != l {
      PowerConcat(cbs, LinkCalls(l'));
    } else {
      assert cbs + [] == cbs;
    }
  }

  lemma Grouped(cbs: seq<Callback>, a: seq<Callback>, b: seq<Callback>, c: seq<Callback>)
    ensures cbs + (a + b + c) == ((cbs + a) + b) + c
  {
  }

  /** Over every transition but OFF to EARLY_GATE, the core stays powered exactly when its
      state is not OFF, and power-up and power-down alternate. */
  lemma PowerFollows(cbs: seq<Callback>, c: ClkState, c': ClkState, l: ClkState, l': ClkState)
    requires PowerAfter(cbs) == Power(true, c != OFF) && !(c == OFF && c' == EARLY_GATE)
    ensures PowerAfter(cbs + Calls(c, c', l, l')) == Power(true, c' != OFF)
  {
    var link := if l' != l then LinkCalls(l') else [];
    UpFollows(cbs, c, c');
    LinkFollows(cbs + UpCalls(c, c'), l, l');
    DownFollows((cbs + UpCalls(c, c')) + link, c, c');
    Grouped(cbs, UpCalls(c, c'), link, DownCalls(c, c'));
  }

  /** The part of struct dsi_clk_mngr that drives the clocks. */
  class Driver {
    const hw: Clocks
    const cbRc: seq<int>  // what the callbacks return, in order
    var cbCalls: nat
    ghost var cbs: seq<Callback>
    var coreState: ClkState
    var linkState: ClkState
    // Transitions of the link clocks from EARLY_GATE to OFF so far.
    ghost var gates: nat
    // How often all core clocks have been switched on.
    ghost var starts: nat

    /** Every clock, power, bus and callback primitive succeeds. */
    predicate NoFaults() {
      hw.OnOk() && hw.OffOk() && forall k :: 0 <= k < |cbRc| ==> cbRc[k] == 0
    }

    /** dsi_display_clk_mngr_register. */
    constructor (n: nat, master: nat, has: seq<Has>, onRc: seq<int>, offRc: seq<int>, cbRc: seq<int>)
      requires 1 <= n <= 2 && master < n && |has| == n
      ensures fresh(hw) && hw.n == n && hw.master == master && hw.has == has
      ensures hw.onRc == onRc && hw.offRc == offRc && this.cbRc == cbRc
      ensures coreState == linkState == OFF && cbs == [] && gates == 0 && hw.ordered
      ensures hw.Sound() && Follows() && Powered() && PlainStates()
    {
      hw := new Clocks(n, master, has, onRc, offRc);
      this.cbRc := cbRc;
      cbCalls, cbs, coreState, linkState, gates, starts := 0, [], OFF, OFF, 0, 0;
    }

    method Call(c: Callback) returns (rc: int)
      modifies this`cbCalls, this`cbs
      ensures cbs == old(cbs) + [c] && cbCalls == old(cbCalls) + 1
      ensures rc == if old(cbCalls) < |cbRc| then cbRc[old(cbCalls)] else 0
      ensures NoFaults() ==> rc == 0
    {
      cbs := cbs + [c];
      rc := if cbCalls < |cbRc| then cbRc[cbCalls] else 0;
      cbCalls := cbCalls + 1;
    }

    /** dsi_clk_update_link_clk_state, switching on. */
    method LinkOn(l: LinkType) returns (rc: int)
      requires hw.Sound()
      modifies this`cbCalls, this`cbs, hw`onCalls, hw`hs, hw`lp, hw`ordered, hw`hsDepth, hw`lpDepth, hw`sound
      ensures hw.Sound() && hw.coreDepth == old(hw.coreDepth)
      ensures NoFaults() ==>
        rc == 0 && hw.sound == old(hw.sound) && cbs == old(cbs) + LinkOnCalls(l) &&
        hw.hsDepth == old(hw.hsDepth) + If(l.hs(), 1) && hw.lpDepth == old(hw.lpDepth) + If(l.lp(), 1)
      ensures NoFaults() && old(hw.LinksReady(l, 0)) ==> hw.ordered
    {
      rc := Call(Callback(PreOn, LINK, l, ON));
      if rc != 0 {
        return;
      }
      rc := hw.LinksOn(l);
      if rc != 0 {
        return;
      }
      rc := Call(Callback(PostOn, LINK, l, ON));
    }

    /** dsi_clk_update_link_clk_state, switching off. */
    method LinkOff(l: LinkType, state: ClkState) returns (rc: int)
      requires hw.Sound()
      modifies this`cbCalls, this`cbs, hw`hs, hw`lp, hw`ordered, hw`hsDepth, hw`lpDepth
      ensures hw.Sound()
      ensures NoFaults() ==> rc == 0 && cbs == old(cbs) + LinkOffCalls(l, state)
      ensures hw.hsDepth == old(hw.hsDepth) - If(l.hs(), 1) && hw.lpDepth == old(hw.lpDepth) - If(l.lp(), 1)
      ensures hw.sound == old(hw.sound) && hw.coreDepth == old(hw.coreDepth)
      ensures old(hw.LinksReady(l, 1)) ==> hw.ordered
    {
      rc := Call(Callback(PreOff, LINK, l, state));
      hw.LinksOff(l);
      rc := Call(Callback(PostOff, LINK, l, state));
    }

    /** First part of dsi_update_clk_state: the core clocks go on. */
    method CoreOn() returns (rc: int, ok: bool)
      requires hw.Sound()
      modifies this`cbCalls, this`cbs, this`coreState, this`starts
      modifies hw`onCalls, hw`offCalls, hw`core, hw`ordered, hw`coreDepth, hw`sound
      ensures hw.Sound() && (!ok ==> rc != 0) && coreState == if ok then ON else old(coreState)
      ensures hw.hsDepth == old(hw.hsDepth) && hw.lpDepth == old(hw.lpDepth)
      ensures NoFaults() ==>
        rc == 0 && ok && hw.sound == old(hw.sound) && cbs == old(cbs) + CoreOnCalls(old(coreState)) &&
        starts == old(starts) + 1 &&
        hw.coreDepth == old(hw.coreDepth) + 1
      ensures NoFaults() && old(hw.ordered && hw.sound) && old(hw.coreDepth) == hw.hsDepth == hw.lpDepth == 0 ==>
        hw.ordered
    {
      rc, ok := 0, false;
      if coreState == OFF {
        rc := Call(Callback(PreOn, CORE, NONE, ON));
        if rc != 0 {
          return;
        }
      }
      rc := hw.CoresOn();
      starts := starts + 1;
      if rc != 0 {
        return;
      }
      rc := Call(Callback(PostOn, CORE, NONE, ON));
      coreState, ok := ON, true;
    }

    /** Link clocks up: low power, then high speed. */
    method LinksUp() returns (rc: int)
      requires hw.Sound()
      modifies this`cbCalls, this`cbs, hw`onCalls, hw`hs, hw`lp, hw`ordered, hw`hsDepth, hw`lpDepth, hw`sound
      ensures hw.Sound() && hw.coreDepth == old(hw.coreDepth)
      ensures NoFaults() ==>
        rc == 0 && hw.sound == old(hw.sound) && cbs == old(cbs) + LinkCalls(ON) &&
        hw.hsDepth == old(hw.hsDepth) + 1 && hw.lpDepth == old(hw.lpDepth) + 1
      ensures NoFaults() && old(hw.LinksReady(LP_HS, 0)) ==> hw.ordered
    {
      rc := LinkOn(LP);
      if rc != 0 {
        return;
      }
      rc := LinkOn(HS);
    }

    /** Link clocks down: high speed, then low power. */
    method LinksDown(state: ClkState) returns (rc: int)
      requires hw.Sound() && state != ON
      modifies this`cbCalls, this`cbs, hw`hs, hw`lp, hw`ordered, hw`hsDepth, hw`lpDepth
      ensures hw.Sound() && hw.sound == old(hw.sound) && hw.coreDepth == old(hw.coreDepth)
      ensures NoFaults() ==>
        rc == 0 && cbs == old(cbs) + LinkCalls(state) &&
        hw.hsDepth == old(hw.hsDepth) - 1 && hw.lpDepth == old(hw.lpDepth) - 1
      ensures NoFaults() && old(hw.LinksReady(LP_HS, 1)) ==> hw.ordered
    {
      ghost var ready := hw.LinksReady(LP_HS, 1);
      rc := LinkOff(HS, state);
      if rc != 0 {
        return;
      }
      assert ready ==> hw.LinksReady(LP, 1);
      rc := LinkOff(LP, state);
    }

    /** Whether the link clocks leave EARLY_GATE for OFF while the core clocks are off. */
    predicate Gated(linkTo: ClkState)
      reads this
    {
      linkTo == OFF && linkState == EARLY_GATE && coreState != ON
    }

    /** What precedes leaving EARLY_GATE: core clocks on, and no link clocks. */
    method Ungate() returns (rc: int)
      requires hw.Sound()
      modifies this`starts, hw
      ensures hw.Sound() && hw.hsDepth == old(hw.hsDepth) && hw.lpDepth == old(hw.lpDepth)
      ensures NoFaults() ==>
        rc == 0 && starts == old(starts) + 1 && hw.sound == old(hw.sound) && hw.coreDepth == old(hw.coreDepth) + 1
    {
      rc := hw.CoresOn();
      starts := starts + 1;
      if rc != 0 {
        return;
      }
      rc := hw.LinksOn(NONE);  // the driver passes LP & HS, which is empty
    }

    /** Link clocks off.  Leaving EARLY_GATE they need the core clocks on for a while; `held`
        reports that those are left on for the core part to switch off (l_c_on). */
    method LinkOffPart(coreReq: bool, coreTo: ClkState, linkTo: ClkState) returns (rc: int, held: bool)
      requires hw.Sound() && linkTo != ON
      modifies this`cbCalls, this`cbs, this`starts, hw
      ensures hw.Sound()
      ensures held == (rc == 0 && Gated(linkTo) && coreReq && coreTo == OFF && coreState == EARLY_GATE)
      ensures NoFaults() ==>
        rc == 0 && hw.sound == old(hw.sound) && cbs == old(cbs) + LinkCalls(linkTo) &&
        starts == old(starts) + Bit(linkTo == OFF && linkState == EARLY_GATE && coreState != ON) &&
        hw.coreDepth == old(hw.coreDepth) + Bit(held) &&
        hw.hsDepth == old(hw.hsDepth) - 1 && hw.lpDepth == old(hw.lpDepth) - 1
      ensures NoFaults() && !Gated(linkTo) && old(hw.LinksReady(LP_HS, 1)) ==> hw.ordered
    {
      hide CoreOnCalls, CoreOffCalls, LinkOnCalls, LinkOffCalls, LinkCalls;
      held := false;
      if linkTo == OFF && linkState == EARLY_GATE && coreState != ON {
        rc := Ungate();
        if rc != 0 {
          return;
        }
        held := true;
      }
      rc := LinksDown(linkTo);
      if rc != 0 {
        held := false;
        return;
      }
      if held && !(coreReq && coreTo == OFF && coreState == EARLY_GATE) {
        held := false;
        rc := hw.CoresOff();
      }
    }

    /** The link part of dsi_update_clk_state. */
    method LinkPart(coreReq: bool, coreTo: ClkState, linkTo: ClkState) returns (rc: int, held: bool)
      requires hw.Sound()
      modifies this`cbCalls, this`cbs, this`linkState, this`gates, this`starts, hw
      ensures hw.Sound() && linkState == if rc == 0 then linkTo else old(linkState)
      ensures held == (rc == 0 && old(Gated(linkTo)) && coreReq && coreTo == OFF && coreState == EARLY_GATE)
      ensures NoFaults() ==>
        rc == 0 && hw.sound == old(hw.sound) && cbs == old(cbs) + LinkCalls(linkTo) &&
        starts == old(starts) + Bit(linkTo == OFF && old(linkState) == EARLY_GATE && coreState != ON) &&
        hw.coreDepth == old(hw.coreDepth) + Bit(held) &&
        hw.hsDepth == old(hw.hsDepth) + (if linkTo == ON then 1 else -1) &&
        hw.lpDepth == old(hw.lpDepth) + (if linkTo == ON then 1 else -1) &&
        gates == old(gates) + Bit(linkTo == OFF && old(linkState) == EARLY_GATE)
      ensures NoFaults() && linkTo == ON && old(hw.LinksReady(LP_HS, 0)) ==> hw.ordered
      ensures NoFaults() && linkTo != ON && old(!Gated(linkTo) && hw.LinksReady(LP_HS, 1)) ==> hw.ordered
    {
      held := false;
      if linkTo == ON {
        rc := LinksUp();
      } else {
        rc, held := LinkOffPart(coreReq, coreTo, linkTo);
      }
      if rc == 0 {
        gates := gates + if linkTo == OFF && linkState == EARLY_GATE then 1 else 0;
        linkState := linkTo;
      }
    }

    /** Last part of dsi_update_clk_state: the core clocks go to EARLY_GATE or OFF.  From
        EARLY_GATE to OFF they are switched on first, unless the link part left them on. */
    method CoreOff(coreTo: ClkState, held: bool) returns (rc: int)
      requires hw.Sound() && coreTo != ON
      modifies this`cbCalls, this`cbs, this`coreState, this`starts, hw
      ensures hw.Sound() && (coreState == coreTo || (rc != 0 && coreState == old(coreState)))
      ensures hw.hsDepth == old(hw.hsDepth) && hw.lpDepth == old(hw.lpDepth)
      ensures NoFaults() ==>
        rc == 0 && coreState == coreTo && hw.sound == old(hw.sound) && cbs == old(cbs) + CoreOffCalls(coreTo) &&
        starts == old(starts) + Bit(coreTo == OFF && old(coreState) == EARLY_GATE && !held) &&
        hw.coreDepth == old(hw.coreDepth) - 1 + Bit(coreTo == OFF && old(coreState) == EARLY_GATE && !held)
      ensures NoFaults() && old(hw.CoresReady() && coreState == ON) ==> hw.ordered
    {
      if coreTo == OFF && coreState == EARLY_GATE && !held {
        rc := hw.CoresOn();
        starts := starts + 1;
        if rc != 0 {
          return;
        }
      }
      rc := Call(Callback(PreOff, CORE, NONE, coreTo));
      rc := hw.CoresOff();
      if rc != 0 {
        return;
      }
      if coreTo == OFF {
        rc := Call(Callback(PostOff, CORE, NONE, OFF));
      }
      coreState := coreTo;
    }

    ghost predicate CoreBalanced()
      reads this, hw
    {
      hw.coreDepth == Bit(coreState == ON)
    }

    /** A change of the core state, and not from OFF to EARLY_GATE. */
    predicate CoreStep(coreReq: bool, coreTo: ClkState)
      reads this
    {
      coreReq ==> coreTo != coreState && !(coreState == OFF && coreTo == EARLY_GATE)
    }

    /** A transition between plain ON and OFF states, with link clocks on only over core
        clocks before and after. */
    ghost predicate PlainStep(coreReq: bool, coreTo: ClkState, linkReq: bool, linkTo: ClkState)
      reads this, hw
    {
      hw.ordered && hw.sound &&
      hw.coreDepth == Bit(coreState == ON) && hw.hsDepth == hw.lpDepth == Bit(linkState == ON) &&
      coreState != EARLY_GATE && coreTo != EARLY_GATE && linkState != EARLY_GATE && linkTo != EARLY_GATE &&
      (linkState == ON ==> coreState == ON) &&
      (coreReq ==> coreTo != coreState) && (linkReq ==> linkTo != linkState) &&
      ((if linkReq then linkTo else linkState) == ON ==> (if coreReq then coreTo else coreState) == ON)
    }

    function Pick(req: bool, to: ClkState, from: ClkState): ClkState {
      if req then to else from
    }

    /** The depth the link clocks gain in a transition. */
    function LinkGain(req: bool, to: ClkState): int {
      if !req then 0 else if to == ON then 1 else -1
    }

    /** dsi_update_clk_state up to the core clocks' way down. */
    method UpParts(coreReq: bool, coreTo: ClkState, linkReq: bool, linkTo: ClkState)
      returns (rc: int, ok: bool, held: bool)
      requires hw.Sound()
      modifies this`cbCalls, this`cbs, this`coreState, this`linkState, this`gates, this`starts, hw
      ensures hw.Sound() && (!ok ==> rc != 0)
      ensures coreState == old(coreState) || (coreReq && coreTo == coreState == ON)
      ensures ok ==> coreState == Pick(coreReq && coreTo == ON, ON, old(coreState))
      ensures linkState == Pick(ok && linkReq, linkTo, old(linkState))
      ensures NoFaults() ==>
        rc == 0 && ok && hw.sound == old(hw.sound) &&
        coreState == Pick(coreReq && coreTo == ON, ON, old(coreState)) &&
        linkState == Pick(linkReq, linkTo, old(linkState)) &&
        held == (linkReq && coreReq && linkTo == OFF && coreTo == OFF &&
                 old(linkState) == EARLY_GATE && old(coreState) == EARLY_GATE) &&
        cbs == old(cbs) + ((if coreReq && coreTo == ON then CoreOnCalls(old(coreState)) else []) +
                           (if linkReq then LinkCalls(linkTo) else []))
      ensures NoFaults() ==>
        hw.coreDepth == old(hw.coreDepth) + Bit(coreReq && coreTo == ON) + Bit(held) &&
        hw.hsDepth == old(hw.hsDepth) + LinkGain(linkReq, linkTo) &&
        hw.lpDepth == old(hw.lpDepth) + LinkGain(linkReq, linkTo) &&
        gates == old(gates) + Bit(linkReq && linkTo == OFF && old(linkState) == EARLY_GATE)
      ensures NoFaults() ==>
        starts == old(starts) + Bit(coreReq && coreTo == ON) +
                  Bit(linkReq && linkTo == OFF && old(linkState) == EARLY_GATE && coreState != ON)
      ensures NoFaults() && old(PlainStep(coreReq, coreTo, linkReq, linkTo)) ==> hw.ordered
    {
      hide CoreOnCalls, CoreOffCalls, LinkOnCalls, LinkOffCalls, LinkCalls;
      rc, ok, held := 0, true, false;
      ghost var plain := NoFaults() && PlainStep(coreReq, coreTo, linkReq, linkTo);
      if coreReq && coreTo == ON {
        rc, ok := CoreOn();
        if !ok {
          return;
        }
      }
      assert plain ==> hw.ordered && hw.sound && hw.coreDepth == Bit(coreState == ON);
      if linkReq {
        assert plain ==> hw.LinksReady(LP_HS, if linkTo == ON then 0 else 1);
        rc, held := LinkPart(coreReq, coreTo, linkTo);
        ok := rc == 0;
      }
    }

    /** dsi_update_clk_state; a part runs when it is requested. */
    method UpdateClkState(coreReq: bool, coreTo: ClkState, linkReq: bool, linkTo: ClkState) returns (rc: int)
      requires hw.Sound()
      modifies this`cbCalls, this`cbs, this`coreState, this`linkState, this`gates, this`starts, hw
      ensures hw.Sound()
      ensures coreState == old(coreState) || (coreReq && coreState == coreTo)
      ensures linkState == old(linkState) || (linkReq && linkState == linkTo)
      ensures rc == 0 ==> coreState == Pick(coreReq, coreTo, old(coreState))
      ensures rc == 0 ==> linkState == Pick(linkReq, linkTo, old(linkState))
      ensures NoFaults() ==>
        rc == 0 && hw.sound == old(hw.sound) &&
        coreState == Pick(coreReq, coreTo, old(coreState)) && linkState == Pick(linkReq, linkTo, old(linkState)) &&
        (coreReq == (coreTo != old(coreState)) && linkReq == (linkTo != old(linkState)) ==>
          cbs == old(cbs) + Calls(old(coreState), coreTo, old(linkState), linkTo))
      ensures NoFaults() ==>
        hw.hsDepth == old(hw.hsDepth) + LinkGain(linkReq, linkTo) &&
        hw.lpDepth == old(hw.lpDepth) + LinkGain(linkReq, linkTo) &&
        gates == old(gates) + Bit(linkReq && linkTo == OFF && old(linkState) == EARLY_GATE)
      ensures NoFaults() ==>
        starts == old(starts) +
          if coreReq && coreTo == ON then 1
          else if linkReq && linkTo == OFF && old(linkState) == EARLY_GATE && old(coreState) != ON then 1
          else Bit(coreReq && coreTo == OFF && old(coreState) == EARLY_GATE)
      ensures NoFaults() && old(CoreBalanced() && CoreStep(coreReq, coreTo)) ==> CoreBalanced()
      ensures NoFaults() && old(PlainStep(coreReq, coreTo, linkReq, linkTo)) ==> hw.ordered
    {
      hide CoreOnCalls, CoreOffCalls, LinkOnCalls, LinkOffCalls, LinkCalls;
      var ok, held;
      ghost var plain := NoFaults() && PlainStep(coreReq, coreTo, linkReq, linkTo);
      rc, ok, held := UpParts(coreReq, coreTo, linkReq, linkTo);
      if ok && coreReq && coreTo != ON {
        assert plain ==> hw.CoresReady() && coreState == ON;
        rc := CoreOff(coreTo, held);
      }
    }

    /** The clocks follow the states.  The core clocks are on, once, exactly in state ON.  The
        link clocks lag one switch-off behind for every transition of theirs from EARLY_GATE
        to OFF. */
    ghost predicate Follows()
      reads this, hw
    {
      hw.sound && CoreBalanced() && hw.hsDepth == hw.lpDepth == Bit(linkState == ON) - gates
    }

    /** The core is powered exactly outside OFF, and power-up and power-down alternated. */
    ghost predicate Powered()
      reads this
    {
      PowerAfter(cbs) == Power(true, coreState != OFF)
    }

    /** The order has held so far, and the clocks are between plain states. */
    ghost predicate PlainStates()
      reads this, hw
    {
      hw.ordered && gates == 0 && coreState != EARLY_GATE && linkState != EARLY_GATE &&
      (linkState == ON ==> coreState == ON)
    }

    /** Second part of dsi_recheck_clk_state: the clocks are brought to the states the votes
        ask for, where those differ. */
    method MoveTo(core: ClkState, link: ClkState, ghost follow: bool, ghost plain: bool) returns (rc: int)
      requires hw.Sound()
      requires follow ==> Follows() && Powered()
      requires follow ==> !(coreState == OFF && core == EARLY_GATE) && !(linkState == OFF && link == EARLY_GATE)
      requires plain ==> follow && PlainStates()
      requires plain ==> core != EARLY_GATE && link != EARLY_GATE && (link == ON ==> core == ON)
      modifies this, hw
      ensures hw.Sound() && (rc == 0 ==> coreState == core && linkState == link)
      ensures (coreState == old(coreState) || coreState == core) && (linkState == old(linkState) || linkState == link)
      ensures NoFaults() ==>
        rc == 0 && coreState == core && linkState == link && gates == old(gates) + Gate(old(linkState), link)
      ensures NoFaults() ==> cbs == old(cbs) + Calls(old(coreState), core, old(linkState), link)
      ensures NoFaults() && follow ==> Follows() && Powered()
      ensures NoFaults() && plain ==> PlainStates()
    {
      rc := 0;
      ghost var cbs0, c, l := cbs, coreState, linkState;
      if core != coreState || link != linkState {
        assert plain ==> PlainStep(core != coreState, core, link != linkState, link);
        rc := UpdateClkState(core != coreState, core, link != linkState, link);
      } else {
        assert cbs + Calls(coreState, core, linkState, link) == cbs;
      }
      if follow && NoFaults() {
        PowerFollows(cbs0, c, core, l, link);
      }
    }

    /** dsi_display_link_clk_force_update: the link clocks off and on again, unless OFF. */
    method ForceUpdate(ghost follow: bool, ghost plain: bool) returns (rc: int)
      requires hw.Sound() && (follow ==> Follows() && Powered()) && (plain ==> follow && PlainStates())
      modifies this`cbCalls, this`cbs, hw
      ensures hw.Sound() && coreState == old(coreState) && linkState == old(linkState) && gates == old(gates)
      ensures linkState == OFF ==> rc == -11 && cbs == old(cbs)
      ensures NoFaults() && linkState != OFF ==>
        rc == 0 &&
        cbs == old(cbs) + [Callback(PreOff, LINK, LP_HS, OFF), Callback(PostOff, LINK, LP_HS, OFF),
                           Callback(PreOn, LINK, LP_HS, ON), Callback(PostOn, LINK, LP_HS, ON)]
      ensures NoFaults() && follow ==> Follows() && Powered()
      ensures NoFaults() && plain ==> PlainStates()
    {
      assert hw as object != this;
      if linkState == OFF {
        return -11;
      }
      ghost var cbs0 := cbs;
      rc := LinkOff(LP_HS, OFF);
      if rc != 0 {
        return;
      }
      rc := LinkOn(LP_HS);
      if NoFaults() {
        assert cbs == cbs0 + (LinkOffCalls(LP_HS, OFF) + LinkOnCalls(LP_HS));
        PowerConcat(cbs0, LinkOffCalls(LP_HS, OFF) + LinkOnCalls(LP_HS));
      }
    }
  }

  class Manager {
    const drv: Driver
    var clients: seq<Client>

    constructor (drv: Driver)
      ensures this.drv == drv && clients == []
    {
      this.drv, clients := drv, [];
    }

    /** A manager without clients, over a driver with everything off, is in order. */
    lemma Starts()
      requires clients == [] && drv.coreState == drv.linkState == OFF
      requires drv.hw.Sound() && drv.Follows() && drv.Powered() && drv.PlainStates()
      ensures Inv() && Plain()
    {
      NoVotes(OFF, OFF);
    }

    predicate NoFaults() { drv.NoFaults() }

    /** The states are the joins of the votes. */
    ghost predicate Joined()
      reads this, drv
    {
      IsJoin(drv.coreState, CoreVotes(clients)) && IsJoin(drv.linkState, LinkVotes(clients))
    }

    /** What every failure-free run keeps. */
    ghost predicate Inv()
      reads this, drv, drv.hw
    {
      drv.hw.Sound() && Counted(clients) && Joined() && drv.Follows() && drv.Powered()
    }

    /** What every plain run keeps besides. */
    ghost predicate Plain()
      reads this, drv, drv.hw
    {
      drv.PlainStates() && PlainClients(clients)
    }

    /** No vote gates clocks that are off. */
    ghost predicate GatesOnlyOn(cs: seq<Client>)
      reads drv
    {
      (drv.coreState == OFF ==> EARLY_GATE !in CoreVotes(cs)) && (drv.linkState == OFF ==> EARLY_GATE !in LinkVotes(cs))
    }

    /** Each state is where it was, or where the votes want it. */
    ghost predicate Moves(core: ClkState, link: ClkState)
      reads this, drv
    {
      (drv.coreState == core || IsJoin(drv.coreState, CoreVotes(clients))) &&
      (drv.linkState == link || IsJoin(drv.linkState, LinkVotes(clients)))
    }

    /** dsi_recheck_clk_state.  Success brings the states to the maxima of the votes, whatever
        has failed before. */
    method Recheck(ghost g: nat, ghost l: ClkState, ghost ok: bool, ghost plain: bool) returns (rc: int)
      requires drv.hw.Sound() && (ok ==> drv.Follows() && drv.Powered() && GatesOnlyOn(clients))
      requires plain ==> ok && drv.PlainStates() && PlainClients(clients)
      requires drv.gates == g && drv.linkState == l
      modifies drv, drv.hw
      ensures drv.hw.Sound() && (rc == 0 ==> Joined()) && Moves(old(drv.coreState), old(drv.linkState))
      ensures NoFaults() && ok ==> rc == 0 && drv.Follows() && drv.Powered() && Joined()
      ensures NoFaults() ==> drv.gates == g + Gate(l, drv.linkState)
      ensures NoFaults() && plain ==> drv.PlainStates()
    {
      assert drv as object != this && drv.hw as object != this && drv.hw as object != drv;
      var core := Fold(CoreVotes(clients));
      var link := Fold(LinkVotes(clients));
      if plain {
        PlainClientsVote(clients);
        PlainJoins(core, link, CoreVotes(clients), LinkVotes(clients));
      }
      rc := drv.MoveTo(core, link, ok, plain);
    }

    /** The votes change, and nothing else. */
    method Adopt(cs: seq<Client>, ghost g: nat, ghost l: ClkState, ghost ok: bool, ghost plain: bool)
      requires drv.hw.Sound() && (ok ==> drv.Follows() && drv.Powered() && GatesOnlyOn(cs))
      requires plain ==> ok && drv.PlainStates() && PlainClients(cs)
      requires drv.gates == g && drv.linkState == l
      modifies this`clients
      ensures clients == cs && drv.gates == g && drv.linkState == l && drv.coreState == old(drv.coreState)
      ensures drv.hw.Sound() && (ok ==> drv.Follows() && drv.Powered() && GatesOnlyOn(clients))
      ensures plain ==> drv.PlainStates()
    {
      assert drv as object != this && drv.hw as object != this;
      clients := cs;
      assert unchanged(drv) && unchanged(drv.hw);
    }

    /** The votes become those of cs, and the clocks are rechecked if a state changed. */
    method Commit(cs: seq<Client>, changed: bool, ghost g: nat, ghost l: ClkState, ghost ok: bool, ghost plain: bool)
      returns (rc: int)
      requires drv.hw.Sound() && (ok ==> drv.Follows() && drv.Powered() && GatesOnlyOn(cs))
      requires ok && !changed ==> IsJoin(drv.coreState, CoreVotes(cs)) && IsJoin(drv.linkState, LinkVotes(cs))
      requires plain ==> ok && drv.PlainStates() && PlainClients(cs)
      requires drv.gates == g && drv.linkState == l
      modifies this, drv, drv.hw
      ensures drv.hw.Sound() && clients == cs && Moves(old(drv.coreState), l)
      ensures if changed then rc == 0 ==> Joined()
              else rc == 0 && drv.coreState == old(drv.coreState) && drv.linkState == l
      ensures NoFaults() && ok ==> rc == 0 && drv.Follows() && drv.Powered() && Joined()
      ensures NoFaults() ==> drv.gates == g + Gate(l, drv.linkState)
      ensures NoFaults() && plain ==> Plain()
    {
      assert drv as object != this && drv.hw as object != this && drv.hw as object != drv;
      Adopt(cs, g, l, ok, plain);
      rc := 0;
      if changed {
        rc := Recheck(g, l, ok, plain);
      }
    }

    /** dsi_clk_req_state of client i.  The votes change whether or not the clocks can follow.
        After a failure a state may lag behind them, until a request that changes a state
        succeeds. */
    method Request(i: nat, clk: nat, state: ClkState,
                   ghost cs: seq<Client>, ghost g: nat, ghost l: ClkState, ghost plain: bool)
      returns (rc: int)
      requires drv.hw.Sound() && i < |clients| && (plain ==> Inv() && Plain())
      requires clients == cs && drv.gates == g && drv.linkState == l
      modifies this, drv, drv.hw
      ensures drv.hw.Sound()
      ensures clk == 0 || clk > 3 ==> rc == -22 && clients == cs
      ensures 1 <= clk <= 3 ==> clients == cs[i := AfterRequest(cs[i], clk, state)]
      ensures clk == 1 ==> clients[i].link == cs[i].link && Recounted(cs[i].core, clients[i].core, state)
      ensures clk == 2 ==> clients[i].core == cs[i].core && Recounted(cs[i].link, clients[i].link, state)
      ensures clk == 3 ==>
        Recounted(cs[i].core, clients[i].core, state) && Recounted(cs[i].link, clients[i].link, state)
      ensures 1 <= clk <= 3 && Changes(cs[i], clk, state) ==> Moves(old(drv.coreState), l) && (rc == 0 ==> Joined())
      ensures !(1 <= clk <= 3 && Changes(cs[i], clk, state)) ==>
        drv.coreState == old(drv.coreState) && drv.linkState == l && (1 <= clk <= 3 ==> rc == 0)
      ensures NoFaults() && old(Inv()) && !Wraps(cs[i], clk, state) ==> Inv() && (1 <= clk <= 3 ==> rc == 0)
      ensures NoFaults() ==> drv.gates == g + Gate(l, drv.linkState)
      ensures NoFaults() && !Wraps(cs[i], clk, state) && plain && PlainClients(clients) ==> Plain()
    {
      hide Requested, AfterRequest, Recounted, Changes, Counted, IsJoin, Wraps;
      if clk == 0 || clk > 3 {
        return -22;
      }
      RequestCounts(clients[i], clk, state);
      ghost var ok := Inv() && !Wraps(clients[i], clk, state);
      if ok {
        RequestMoves(drv.coreState, drv.linkState, clients, i, clk, state);
      }
      var c, changed := CastVotes(clients[i], clk, state);
      rc := Commit(clients[i := c], changed, g, l, ok, ok && plain && PlainClients(clients[i := c]));
      assert clients == cs[i := c];
    }

    /** dsi_register_clk_handle. */
    method Register(ghost cs: seq<Client>, ghost g: nat, ghost l: ClkState, ghost plain: bool)
      requires drv.hw.Sound() && (plain ==> Inv() && Plain()) && clients == cs && drv.gates == g && drv.linkState == l
      modifies this, drv, drv.hw
      ensures drv.hw.Sound() && clients == [IDLE] + cs && drv.coreState == old(drv.coreState) && drv.linkState == l
      ensures NoFaults() && old(Inv()) ==> Inv() && (plain ==> Plain()) && drv.gates == g + Gate(l, drv.linkState)
    {
      ghost var ok := Inv();
      if ok {
        IdleJoins(drv.coreState, drv.linkState, clients);
      }
      var _ := Commit([IDLE] + clients, false, g, l, ok, plain);
    }

    /** A silenced client leaves the list. */
    method Unlist(i: nat, ghost cs: seq<Client>, ghost ok: bool)
      requires i < |cs| && clients == Silenced(cs, i) && drv.hw.Sound() && Joined()
      requires ok ==> drv.Follows() && drv.Powered() && Counted(Without(cs, i))
      modifies this`clients
      ensures clients == Without(cs, i) && drv.hw.Sound() && Joined() && (ok ==> Inv())
    {
      assert drv as object != this && drv.hw as object != this;
      CoreLeaves(drv.coreState, cs, i);
      LinkLeaves(drv.linkState, cs, i);
      clients := clients[..i] + clients[i + 1..];
      assert clients == Without(cs, i);
    }

    /** dsi_deregister_clk_handle.  A failure leaves the client in the list, voting OFF. */
    method Deregister(i: nat, ghost cs: seq<Client>, ghost g: nat, ghost l: ClkState, ghost plain: bool)
      returns (rc: int)
      requires drv.hw.Sound() && i < |clients| && (plain ==> Inv() && Plain())
      requires clients == cs && drv.gates == g && drv.linkState == l
      modifies this, drv, drv.hw
      ensures drv.hw.Sound() && (rc == 0 ==> Joined())
      ensures clients == if rc == 0 then Without(cs, i) else Silenced(cs, i)
      ensures NoFaults() && old(Inv()) ==>
        rc == 0 && Inv() && (plain ==> Plain()) && drv.gates == g + Gate(l, drv.linkState)
    {
      assert drv as object != this && drv.hw as object != this && drv.hw as object != drv;
      ghost var ok := Inv();
      if ok {
        SilencedGatesNothing(drv.coreState, drv.linkState, cs, i);
      }
      var silenced := Client(clients[i].core.(state := OFF), clients[i].link.(state := OFF));
      rc := Commit(clients[i := silenced], true, g, l, ok, plain);
      if rc == 0 {
        Unlist(i, cs, ok && NoFaults());
      }
    }

    method ForceUpdate(ghost cs: seq<Client>, ghost g: nat, ghost l: ClkState, ghost plain: bool) returns (rc: int)
      requires Inv() && (plain ==> Plain()) && clients == cs && drv.gates == g && drv.linkState == l
      modifies drv, drv.hw
      ensures drv.hw.Sound() && clients == cs && Joined()
      ensures NoFaults() ==> rc == (if old(drv.linkState) == OFF then -11 else 0)
      ensures NoFaults() ==> Inv() && (plain ==> Plain()) && drv.gates == g + Gate(l, drv.linkState)
    {
      assert drv as object != this && drv.hw as object != this && drv.hw as object != drv;
      rc := drv.ForceUpdate(true, plain);
    }

    /** dsi_display_clk_mngr_deregister: all clients are dropped and the clocks follow. */
    method Teardown(ghost cs: seq<Client>, ghost g: nat, ghost l: ClkState, ghost plain: bool) returns (rc: int)
      requires drv.hw.Sound() && (plain ==> Inv() && Plain()) && clients == cs && drv.gates == g && drv.linkState == l
      modifies this, drv, drv.hw
      ensures drv.hw.Sound() && clients == [] && (rc == 0 ==> drv.coreState == drv.linkState == OFF)
      ensures NoFaults() && old(Inv()) ==> rc == 0 && Inv() && (plain ==> Plain())
    {
      NoVotes(drv.coreState, drv.linkState);
      rc := Commit([], true, g, l, Inv(), plain);
      NoVotes(drv.coreState, drv.linkState);
    }

    /** One step of a run.  A request or a deregistration without a client does nothing. */
    method Step(op: Op, ghost cs: seq<Client>, ghost g: nat, ghost l: ClkState, ghost plain: bool)
      requires Inv() && NoFaults() && (plain ==> Plain()) && clients == cs && drv.gates == g && drv.linkState == l
      requires op.Request? && op.i < |cs| ==> !Wraps(cs[op.i], op.clk, op.state)
      modifies this, drv, drv.hw
      ensures Inv() && clients == StepVotes(cs, op) && drv.gates == g + Gate(l, drv.linkState)
      ensures plain && PlainClients(clients) ==> Plain()
    {
      StepVotesOf(cs, op);
      match op {
        case Register =>
          Register(cs, g, l, plain);
        case Request(i, clk, state) =>
          if i < |clients| {
            var _ := Request(i, clk, state, cs, g, l, plain);
          }
        case Deregister(i) =>
          if i < |clients| {
            var _ := Deregister(i, cs, g, l, plain);
          }
        case ForceUpdate =>
          var _ := ForceUpdate(cs, g, l, plain);
      }
    }

    /** The next operation of a run. */
    method Advance(op: Op, ghost cs: seq<Client>, ghost g: nat, ghost cs': seq<Client>, ghost g': nat,
                   ghost plain: bool, ghost plain': bool)
      requires Inv() && NoFaults() && (plain ==> Plain()) && clients == cs && drv.gates == g
      requires cs' == StepVotes(cs, op) && g' == g + Gate(Join(LinkVotes(cs)), Join(LinkVotes(cs')))
      requires op.Request? && op.i < |cs| ==> !Wraps(cs[op.i], op.clk, op.state)
      requires plain' ==> plain && PlainClients(cs')
      modifies this, drv, drv.hw
      ensures Inv() && clients == cs' && drv.gates == g' && (plain' ==> Plain())
    {
      JoinUnique(drv.linkState, Join(LinkVotes(cs)), LinkVotes(cs));
      Step(op, cs, g, drv.linkState, plain);
      JoinUnique(drv.linkState, Join(LinkVotes(cs')), LinkVotes(cs'));
    }

    /** A failure-free run from a fresh manager: what it keeps, and its clients and gates. */
    method Run(ops: seq<Op>)
      requires Inv() && Plain() && NoFaults() && clients == [] && Countable(ops)
      modifies this, drv, drv.hw
      ensures Inv() && clients == RunVotes(ops) && drv.gates == Gates(ops)
      ensures |clients| == Clients(ops)
      ensures forall i: nat :: i < |clients| ==>
        clients[i].core.refs == Refs(ops, i, CORE) && clients[i].link.refs == Refs(ops, i, LINK)
      ensures PlainRun(ops) ==> Plain()
      decreases |ops|
    {
      hide Refs, Clients;
      RunCounts(ops, 0, CORE);
      forall i: nat | i < Clients(ops)
        ensures VoteOf(RunVotes(ops)[i], CORE).refs == Refs(ops, i, CORE)
        ensures VoteOf(RunVotes(ops)[i], LINK).refs == Refs(ops, i, LINK)
      {
        RunCounts(ops, i, CORE);
        RunCounts(ops, i, LINK);
      }
      if ops != [] {
        var past, op := ops[..|ops| - 1], ops[|ops| - 1];
        Run(past);
        Advance(op, RunVotes(past), Gates(past), RunVotes(ops), Gates(ops), PlainRun(past), PlainRun(ops));
      }
    }

    /** What a run keeps, down to the clocks of every controller. */
    lemma Laws(i: nat)
      requires Inv() && i < drv.hw.n
      ensures At(CORE_LINES, drv.hw.has[i], drv.hw.core[i], Bit(drv.coreState == ON))
      ensures At(HS_LINES, drv.hw.has[i], drv.hw.hs[i], Bit(drv.linkState == ON) - drv.gates)
      ensures At(LP_LINES, drv.hw.has[i], drv.hw.lp[i], Bit(drv.linkState == ON) - drv.gates)
      ensures PowerAfter(drv.cbs) == Power(true, drv.coreState != OFF)
    {
      drv.hw.Each(i, drv.hw.coreDepth, drv.hw.hsDepth, drv.hw.lpDepth);
    }
  }
}
