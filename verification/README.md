# Verified model of the downstream DSI driver

The driver under `reference/downstream/drivers/dsi-staging` runs a Qualcomm MIPI DSI display.
This project models the parts of it whose correctness spans many functions and many calls, and
proves what they are for. All line numbers below refer to that directory's files.

| file | models | main results |
|---|---|---|
| `ClkHw.dfy` | the clocks, power and bus votes of one or two controllers | exactly when starting is all or nothing; master before slave, core before link, at every primitive step |
| `ClkManager.dfy` | client votes, the manager's states, transitions and callbacks | what every failure-free run keeps: counts, maxima of votes, clock depths, power, order |
| `ReadBack.dfy` | reading a panel response through a 16-byte window | the buffer gets exactly the panel's bytes; when a read completes |
| `CmdBatch.dfy` | the 4096-byte command batch | sent plus pending is what was accepted; a receiver can decode it |
| `Supply.dfy`, `CtrlState.dfy` | regulators; controller state machine and the registers behind it | reachable states characterised exactly; supplies follow the state; after any run every bit of DSI_CTRL is accounted for |
| `StatusIrq.dfy` | reference-counted status interrupts | counts, mask and hardware bits agree after any run, and exactly when the line does |
| `ErrorStatus.dfy` | error report and its clearing | clearing a report makes the next one empty and loses nothing unreported |
| `ParseSpec.dfy`, `Parser.dfy` | panel-description parser | the in-place parser refines a pure one, which inverts printing |
| `Rates.dfy`, `Modes.dfy` | clock rates, front porches, mode table | two rate computations agree; rounding bounds; the table is a cross product, and exactly when it fits in what is allocated |
| `Roi.dfy` | splitting a region over controllers | every requested pixel is shown exactly once; what a failed request leaves |
| `Words.dfy`, `Arith.dfy` | words, bytes, machine integers, and the laws of products and quotients used above | |

Objects whose fields the driver changes are classes; hardware, panel, regulators and callbacks are
environments whose answers are arbitrary. Ghost state records what cannot be read back: for each
clock how many calls switched it on minus how many switched it off (`ClkHw.Clocks`; this balance of
calls goes below 0 where the driver switches off once too often, and a clock framework that ignores
such a call has another count of its own), whether the order of clocks held at every primitive step
(`ordered`), the callbacks made so far (`cbs`), whether interrupt-line calls alternated. Bit masks
whose arithmetic is bit by bit are sets of bit numbers. A failure-free run is one in which every
clock, power, bus and callback primitive returns 0.

Where the code and what it is meant for differ, the code is modelled, and the exact condition is proved:

- A link vote that goes from EARLY_GATE to OFF re-enables the link clocks with
  `DSI_LINK_LP_CLK & DSI_LINK_HS_CLK`, which is 0 (dsi_clk_manager.c:982), so nothing is switched on
  and one switch-off too many follows. The link depth is proved to be that of the state less the
  number of such switch-offs (`Manager.Run`, `Gates`); it is right if there are none
  (`NoLinkGates`), and `GatedRunOverstops` is a run with one. The core depth is right in every run.
- A long read is complete if and only if it asks for at most 65529 bytes, because sizes are sent in
  two bytes and received bytes are counted in sixteen bits (`ReadCompletes`, `LongerReadStops`).
- `dsi_ctrl_set_power_state` documents that all engines must be off (dsi_ctrl.c:3218-3219); the code
  only looks at the video engine, so the promise fails if and only if the controller engine is on and
  the video engine off (`PowerPromise`), with a run to such a state for either direction
  (`PowerOffWithEnginesOn`, `PowerOnWithEnginesOn`).
- `dsi_pwr_enable_regulator` counts a reference even if the regulators could not be enabled
  (dsi_pwr.c:367-372): the balance survives if and only if there was a reference, or there is nothing
  to switch on, or all regulators would start (`CanEnable`); `ReferencedButOff` shows a set that does
  not. `SetPowerState` lifts the condition to the controller.
- A failed power-on gives back a reference to the host supply even where it took none, because the host
  was initialised (dsi_ctrl.c:929-936): that supply then goes off under an initialised host
  (`EnableSupplies`).
- The mode count does not multiply command timings by the refresh rates (dsi_panel.c:3577-3579), but the
  loop that fills the table does (dsi_display.c:6336-6352). `GetModes` has the exact condition for
  staying inside the array, `CommandTimingOverruns` an input that does not, and `CommandTimingFits`
  one that does and still loses half of the table.
- A failed start of link clocks is undone if and only if only high-speed clocks were asked for, or what
  failed was the rate of the first escape clock or, when only escape clocks were asked for, of the
  second (`LinkEnable`): a failing enable unprepares once more, and the undo labels only know one kind
  at a time (dsi_clk_manager.c:718-722), while the forced update asks for both. `EnableFailed` says
  for each failing call what stays on; `MasterStaysOn` is an input.
- A region is recorded before it is programmed (dsi_ctrl.c:2261-2264), so that a request that failed
  is not repeated (`FailedRequestIsForgotten`).
- Initialising the host rewrites the interrupt registers even under continuous splash
  (dsi_ctrl.c:2761-2763), although the comment above says that hardware operations are omitted
  (`CtrlState.BaseInt`).
- Parsing keeps at most 20 children, and a node without statements shares its data with the name of
  its first child, so that a blank name ends the counting pass early: the exact condition for the
  round trip is in `ParseSpec.RoundTrip`, with an input for either failure (`HiddenStatement`,
  `DroppedChild`).
- Setting up an interrupt line again while interrupts are still counted leaves the line off
  (`SecondLineIsOff`): line and mask agree after every step of a run if and only if that never happens
  (`StatusIrq.Interrupts.Run`).
- A requested rectangle with crossed edges is stored with a wrapped extent (`Roi.StoredIff`).
- The two clock-rate computations store different bit clocks unless the bit clock is a multiple of 8,
  or 7 on C-PHY (`Rates.BothRates`).

## Model

| member | source | states |
|---|---|---|
| ReadBack.MessageRx | reference/downstream/drivers/dsi-staging/dsi_ctrl.c:1427-1549 | A read of n > 2 bytes that completes returns n, leaves exactly the panel's first n bytes at the start of the buffer, has accounted for n + 4 bytes and asked for n in its last pass; a pass that fails ends it with that pass's code, an empty one with 0. A read of at most two bytes, whatever it is answered with, is decided by the last four bytes received: type 0x11 or 0x21 gives one byte, 0x12 or 0x22 two bytes, an error report or an unknown type 0 |
| ReadBack.ReadCompletes | reference/downstream/drivers/dsi-staging/dsi_ctrl.c:1446-1516 | A read of n > 2 bytes completes if and only if n <= 65529 and the panel answers each of the passes the read needs |
| ReadBack.CompletesFrom | reference/downstream/drivers/dsi-staging/dsi_ctrl.c:1446-1516 | The same from any pass on, with the exact number of passes |
| ReadBack.LongerReadStops | reference/downstream/drivers/dsi-staging/dsi_ctrl.c:1463-1493 | Above 65529 bytes a panel that always answers is cut off in pass 4680, whose byte count wraps to 0; the call returns 0 |
| ReadBack.ReadLong | reference/downstream/drivers/dsi-staging/dsi_ctrl.c:1446-1521 | The loop asks for min(n, 10 + 14 k) bytes in pass k, terminates because the remaining length shrinks, and ends as the pass-by-pass account of the panel says |
| ReadBack.LongPass | reference/downstream/drivers/dsi-staging/dsi_ctrl.c:1463-1493 | One pass stops the read, completes it, or leaves the response stored up to the size it asked for |
| ReadBack.CollectPass | reference/downstream/drivers/dsi-staging/dsi_ctrl.c:1463-1493 | Header and data lie in the buffer without gap or repetition after a pass, whatever window the hardware kept |
| ReadBack.PassStores | reference/downstream/drivers/dsi-staging/dsi_ctrl_hw_cmn.c:846-873 | Appending the fresh part of the 16-byte window to what earlier passes stored gives the response so far |
| ReadBack.GetCmdReadData | reference/downstream/drivers/dsi-staging/dsi_ctrl_hw_cmn.c:814-878 | One read-back keeps exactly the window's bytes that no earlier pass stored, right-aligned for a response shorter than the window, takes an error report off the byte count, and on an empty count touches nothing |
| ReadBack.LoadFresh | reference/downstream/drivers/dsi-staging/dsi_ctrl_hw_cmn.c:858-873 | The window behind the repeated bytes lands at the write position, nothing else changes |
| ReadBack.LoadWords | reference/downstream/drivers/dsi-staging/dsi_ctrl_hw_cmn.c:858-868 | Reading the registers downwards stores the bytes in the order received |
| ReadBack.ParseResponse | reference/downstream/drivers/dsi-staging/dsi_ctrl.c:1523-1545 | By the type in its first byte: 0x11 and 0x21 give one byte, 0x12 and 0x22 two, 0x1A and 0x1C all n, moved down over their own header; an error report 0x02 and any other type give 0 |
| ReadBack.CopyDown | reference/downstream/drivers/dsi-staging/dsi_ctrl.c:1414-1425 | The payload arrives intact although source and destination overlap |
| ReadBack.ReadShort | reference/downstream/drivers/dsi-staging/dsi_ctrl.c:1437-1494 | The single pass of a read of at most two bytes leaves the last four bytes received in the buffer, for any answer, and nothing else changes |
| ReadBack.ShortCount | reference/downstream/drivers/dsi-staging/dsi_ctrl_hw_cmn.c:834-844 | An error report of eight bytes is told from other short answers |
| ReadBack.ReportIsTakenOff | reference/downstream/drivers/dsi-staging/dsi_ctrl_hw_cmn.c:835-840 | An error report behind a response is taken off the byte count, behind a long one and behind a short one; any other count is kept |
| ReadBack.Rdbk.Clear | reference/downstream/drivers/dsi-staging/dsi_ctrl_hw_cmn.c:798-804 | Nothing is counted as received before a pass |
| ClkHw.Clocks.CoreEnable | reference/downstream/drivers/dsi-staging/dsi_clk_manager.c:598-656 | On success every core line of every controller is one up; on any failure with succeeding undo calls every count is as before; the slave starts after the master. The calls made are those of the lines present, and the first that fails ends it with its code |
| ClkHw.Clocks.CoreUp | reference/downstream/drivers/dsi-staging/dsi_clk_manager.c:611-645 | One controller: power and all its clocks are one up, or none |
| ClkHw.Clocks.CoreClkStart | reference/downstream/drivers/dsi-staging/dsi_clk_manager.c:234-305 | The clocks present come on in order, one call each; the first call that fails gives its code and the clocks before it go off again |
| ClkHw.Clocks.CoreClkStop | reference/downstream/drivers/dsi-staging/dsi_clk_manager.c:307-335 | Undoes CoreClkStart, or changes nothing when the bus vote cannot be dropped, with that call's code |
| ClkHw.Clocks.CoreDown | reference/downstream/drivers/dsi-staging/dsi_clk_manager.c:741-772 | One controller: clocks and power are one down |
| ClkHw.Clocks.CoreDisable | reference/downstream/drivers/dsi-staging/dsi_clk_manager.c:727-775 | Every core line of every controller is one down, the master's last, exactly when every bus vote and power supply present can be dropped |
| ClkHw.Clocks.HsStart | reference/downstream/drivers/dsi-staging/dsi_clk_manager.c:480-520 | High-speed clocks of one controller: all prepared and enabled, if and only if all calls return 0, or all counts as before |
| ClkHw.Clocks.HsThree | reference/downstream/drivers/dsi-staging/dsi_clk_manager.c:391-467 | Preparing (or enabling) the two or three clocks is all or nothing |
| ClkHw.Clocks.HsThreeOff | reference/downstream/drivers/dsi-staging/dsi_clk_manager.c:426-475 | Exactly undoes HsThree |
| ClkHw.Clocks.HsSetRate | reference/downstream/drivers/dsi-staging/dsi_clk_manager.c:337-389 | Sets no rate under continuous splash; otherwise one for each clock the controller has; moves no count |
| ClkHw.Clocks.HsStop | reference/downstream/drivers/dsi-staging/dsi_clk_manager.c:525-537 | Exactly undoes HsStart |
| ClkHw.Clocks.LpStart | reference/downstream/drivers/dsi-staging/dsi_clk_manager.c:539-583 | If both its calls return 0 the escape clock is prepared and enabled once more; a refused rate leaves it alone; a failing enable leaves it unprepared once too often |
| ClkHw.Clocks.LpStop | reference/downstream/drivers/dsi-staging/dsi_clk_manager.c:585-596 | Exactly undoes a successful LpStart |
| ClkHw.Clocks.LinkEnable | reference/downstream/drivers/dsi-staging/dsi_clk_manager.c:658-725 | It succeeds if and only if the next calls, as many as there are clocks to start, return 0; then the chosen link clocks of every controller are one up. After a failure all counts are as before if and only if only high-speed clocks were asked for, or a rate was refused: for both kinds that of the master's escape clock, for the escape clocks alone that of either. Otherwise EnableFailed says what stays on, for each failing call |
| ClkHw.Clocks.EnableUndone | reference/downstream/drivers/dsi-staging/dsi_clk_manager.c:717-724 | When a failed start leaves all counts as before |
| ClkHw.MasterStaysOn | reference/downstream/drivers/dsi-staging/dsi_clk_manager.c:717-724 | Two controllers, both kinds of link clock, and a refused rate of the slave's escape clock: all of the master's link clocks stay on |
| ClkHw.PresentClocksOnly | reference/downstream/drivers/dsi-staging/dsi_clk_manager.c:234-305 | Only the clocks a controller has are switched on, each at its place |
| ClkHw.Places | reference/downstream/drivers/dsi-staging/dsi_clk_manager.c:234-290 | The order in which the core clocks of a controller start |
| ClkHw.Clocks.LinkDisable | reference/downstream/drivers/dsi-staging/dsi_clk_manager.c:777-829 | The chosen link clocks of every controller are one down, and the order master over slave and core over link is kept at every primitive step |
| ClkHw.Clocks.RestOrdered | reference/downstream/drivers/dsi-staging/dsi_clk_manager.c:598-829 | With every group at rest and link clocks on only over core clocks, no slave line runs without its master's and no link line without the cores |
| ClkHw.Clocks.Each | reference/downstream/drivers/dsi-staging/dsi_clk_manager.c:598-829 | The depths speak for every line of every controller |
| ClkHw.Clocks.CoresOn | reference/downstream/drivers/dsi-staging/dsi_clk_manager.c:598-656 | Raises the core depth by one or, on failure, gives up the claim to know it |
| ClkHw.Clocks.CoresOff | reference/downstream/drivers/dsi-staging/dsi_clk_manager.c:727-775 | Lowers the core depth by one and keeps the order |
| ClkHw.Clocks.LinksOn | reference/downstream/drivers/dsi-staging/dsi_clk_manager.c:658-725 | Raises the depths of the chosen link clocks by one and keeps the order |
| ClkHw.Clocks.LinksOff | reference/downstream/drivers/dsi-staging/dsi_clk_manager.c:777-829 | Lowers the depths of the chosen link clocks by one and keeps the order |
| ClkManager.Manager.Run | reference/downstream/drivers/dsi-staging/dsi_clk_manager.c:1091-1370 | Every failure-free run of registrations, requests, deregistrations and forced updates keeps: each vote is referenced exactly when ON, and as often as its client has asked for ON and not released again, the manager states are the maxima of the votes, the core clocks are on once exactly in state ON, the link depth is that of the state less the gated switch-offs, power was voted up and down alternately; and runs of plain votes with link only beside core also keep the clock order at every primitive step |
| ClkManager.Manager.Laws | reference/downstream/drivers/dsi-staging/dsi_clk_manager.c:895-1089 | What that means for each line of each controller, and that power is voted exactly outside OFF |
| ClkManager.Manager.Step | reference/downstream/drivers/dsi-staging/dsi_clk_manager.c:1159-1370 | One operation keeps all of it, and moves the votes as the clients' own bookkeeping says |
| ClkManager.Manager.Starts | reference/downstream/drivers/dsi-staging/dsi_clk_manager.c:1385-1432 | A fresh manager satisfies it |
| ClkManager.Manager.Recheck | reference/downstream/drivers/dsi-staging/dsi_clk_manager.c:1091-1157 | On success the states are the maxima of the votes, under OFF < EARLY_GATE < ON, whatever has failed before; on failure each is where it was or at the maximum |
| ClkManager.Manager.Commit | reference/downstream/drivers/dsi-staging/dsi_clk_manager.c:1249-1253 | Skipping the recheck when no state changed loses nothing |
| ClkManager.Manager.Request | reference/downstream/drivers/dsi-staging/dsi_clk_manager.c:1159-1257 | The client's votes named by the request count as CastVote says, the others stay, even if the clocks cannot follow; a bad clock selector changes nothing; without failure or count overflow everything a run keeps is kept. In any state, also after failures: a request that changes no vote's state moves nothing, and one that does brings both states to the maxima when it succeeds, and else leaves each where it was or there |
| ClkManager.Manager.Register | reference/downstream/drivers/dsi-staging/dsi_clk_manager.c:1298-1327 | A new client asks for nothing and moves nothing |
| ClkManager.Manager.Deregister | reference/downstream/drivers/dsi-staging/dsi_clk_manager.c:1329-1370 | The client's votes go OFF, the clocks follow, and only then it leaves; on failure it stays, voting OFF; on success the states are the maxima of the remaining votes, whatever has failed before |
| ClkManager.Manager.ForceUpdate | reference/downstream/drivers/dsi-staging/dsi_clk_manager.c:1259-1296 | Off and on again: states, depths and order are as before |
| ClkManager.Manager.Teardown | reference/downstream/drivers/dsi-staging/dsi_clk_manager.c:1434-1466 | All clients go; if it succeeds, from any state, both states are OFF, and without failures the clocks have followed in order |
| ClkManager.Fold | reference/downstream/drivers/dsi-staging/dsi_clk_manager.c:1112-1130 | The two early-exit loops compute the maximum of the votes |
| ClkManager.JoinUnique | reference/downstream/drivers/dsi-staging/dsi_clk_manager.c:1103-1130 | There is only one such maximum |
| ClkManager.JoinIs | reference/downstream/drivers/dsi-staging/dsi_clk_manager.c:1103-1110 | Some ON makes the manager ON; without one, some EARLY_GATE makes it EARLY_GATE; else it is OFF |
| ClkManager.CastVote | reference/downstream/drivers/dsi-staging/dsi_clk_manager.c:1189-1244 | One ON is one reference more, modulo 2^32, and the state is ON; another request takes one reference off if there is any, and the state falls to the one asked for with the last; without references at most EARLY_GATE becomes OFF; a recheck is due exactly when the state changed or the last reference went |
| ClkManager.OnsThenOffs | reference/downstream/drivers/dsi-staging/dsi_clk_manager.c:1181-1244 | After k ONs, m requests for another state leave k - m references: ON while m < k, and that state at m = k |
| ClkManager.RunCounts | reference/downstream/drivers/dsi-staging/dsi_clk_manager.c:1189-1244 | After any run of any clients each count is its ON requests less the other requests that found a reference, and its state is ON while there is one, and else the state asked for with the last reference, or OFF since that was asked for |
| ClkManager.HoldAndRelease | reference/downstream/drivers/dsi-staging/dsi_clk_manager.c:1189-1244 | A new client that asks k times for ON and m times for another state has k - m references, and with the last one gone that state |
| ClkManager.StepCounts | reference/downstream/drivers/dsi-staging/dsi_clk_manager.c:1189-1244 | The same for one request, of the kind of clock it is about |
| ClkManager.RequestCounts | reference/downstream/drivers/dsi-staging/dsi_clk_manager.c:1190-1243 | A request for core clocks leaves the link vote alone, and the other way round |
| ClkManager.CastVotes | reference/downstream/drivers/dsi-staging/dsi_clk_manager.c:1189-1244 | Both votes of a client, and whether the clocks need a recheck |
| ClkManager.RequestKeepsVote | reference/downstream/drivers/dsi-staging/dsi_clk_manager.c:1189-1244 | A request keeps "referenced exactly when ON" if and only if it does not wrap the 32-bit count; then it reports a change exactly when the state changed, and never takes OFF to EARLY_GATE |
| ClkManager.RequestMoves | reference/downstream/drivers/dsi-staging/dsi_clk_manager.c:1189-1253 | Over all clients: no request gates clocks that are off, and one that changes no state leaves both maxima |
| ClkManager.OneVoteMoved | reference/downstream/drivers/dsi-staging/dsi_clk_manager.c:1103-1130 | OFF to EARLY_GATE is not reachable for the manager |
| ClkManager.OffVoteMayGo | reference/downstream/drivers/dsi-staging/dsi_clk_manager.c:1346-1364 | Removing a client that votes OFF leaves the maximum |
| ClkManager.PlainJoins | reference/downstream/drivers/dsi-staging/dsi_clk_manager.c:1103-1130 | If each client holds a link vote only beside a core vote, so does the manager |
| ClkManager.PowerFollows | reference/downstream/drivers/dsi-staging/dsi_clk_manager.c:895-1089 | Over every transition but OFF to EARLY_GATE, power-up and power-down callbacks alternate and power stays voted exactly outside OFF |
| ClkManager.CallsAre | reference/downstream/drivers/dsi-staging/dsi_clk_manager.c:907-1085 | The callbacks of every transition, one by one: core before link and low power before high speed on the way up, the reverse on the way down, power asked for first and dropped last |
| ClkManager.NoLinkGates | reference/downstream/drivers/dsi-staging/dsi_clk_manager.c:968-1000 | Without an EARLY_GATE request for link clocks no switch-off is gated, so the link depth is 1 in state ON and 0 otherwise |
| ClkManager.GatedRunOverstops | reference/downstream/drivers/dsi-staging/dsi_clk_manager.c:968-1000 | A run in which a link vote goes ON, EARLY_GATE, OFF: the link clocks are switched off once too often |
| ClkManager.Driver.UpdateClkState | reference/downstream/drivers/dsi-staging/dsi_clk_manager.c:895-1089 | States, callbacks and clock depths after any requested transition; the core depth stays 1 exactly in ON through EARLY_GATE with and without clocks held on by the link part; the core clocks are started once where they have to be, also when both kinds leave EARLY_GATE together, and else not at all; plain transitions keep the order at every primitive step; when a primitive fails each state is the old or the requested one, and on return of 0 the requested one |
| ClkManager.Driver.CoreOn | reference/downstream/drivers/dsi-staging/dsi_clk_manager.c:912-939 | Power is voted only when coming from OFF; the core depth rises by one |
| ClkManager.Driver.LinkPart | reference/downstream/drivers/dsi-staging/dsi_clk_manager.c:941-1032 | The link clocks go one up or one down, and the core clocks are left on exactly when the core part will switch them off |
| ClkManager.Driver.LinkOffPart | reference/downstream/drivers/dsi-staging/dsi_clk_manager.c:952-1029 | The same for the way down; leaving EARLY_GATE switches the core clocks on for a while |
| ClkManager.Driver.CoreOff | reference/downstream/drivers/dsi-staging/dsi_clk_manager.c:1034-1085 | The core clocks end one down, or level when they had to be switched on first |
| ClkManager.Driver.LinkOn | reference/downstream/drivers/dsi-staging/dsi_clk_manager.c:831-893 | Callbacks around the switch-on |
| ClkManager.Driver.LinkOff | reference/downstream/drivers/dsi-staging/dsi_clk_manager.c:831-893 | Callbacks around the switch-off; it goes through whatever they return |
| ClkManager.Driver.MoveTo | reference/downstream/drivers/dsi-staging/dsi_clk_manager.c:1132-1153 | Bringing the clocks to the votes' states keeps balance, power and order |
| ClkManager.Driver.ForceUpdate | reference/downstream/drivers/dsi-staging/dsi_clk_manager.c:1259-1296 | Refused when the link clocks are OFF; otherwise depths and power are as before |
| ClkManager.Driver.constructor | reference/downstream/drivers/dsi-staging/dsi_clk_manager.c:1385-1432 | Everything off, and in balance |
| Supply.Regulators.EnableAll | reference/downstream/drivers/dsi-staging/dsi_pwr.c:132-221 | All regulators of the set are one up if every call of the sequence succeeds, and otherwise all are as before |
| Supply.Regulators.DisableAll | reference/downstream/drivers/dsi-staging/dsi_pwr.c:173-190 | All are one down |
| Supply.Regulators.Enable | reference/downstream/drivers/dsi-staging/dsi_pwr.c:352-388 | The reference is counted even on failure: count and regulators agree afterwards if and only if, before the call, there was a reference or nothing to switch on or every regulator would start |
| Supply.ReferencedButOff | reference/downstream/drivers/dsi-staging/dsi_pwr.c:366-372 | One regulator whose enabling fails with -5: the set is referenced and the regulator is off |
| Supply.SecondRefused | reference/downstream/drivers/dsi-staging/dsi_pwr.c:139-172 | Two regulators, the second with a choice of voltages: refusing its voltage, or its enabling, takes the first off again; a positive load mode is no refusal |
| Supply.Regulators.Disable | reference/downstream/drivers/dsi-staging/dsi_pwr.c:352-388 | Never fails, keeps the agreement, and ignores an unbalanced call |
| CtrlState.Ctrl.Run | reference/downstream/drivers/dsi-staging/dsi_ctrl.c:266-449 | Every run of power, engine, host, test-pattern and reset requests over regulators that do not fail keeps: video engine on implies controller and power on, command engine on implies controller on; the host supply is referenced and enabled once while power is on or the host is initialised, the digital supply while power is on; the engine bits of DSI_CTRL are the engine states and all else in the registers is what host initialisations, under continuous splash or not, and test patterns wrote; every reset hit a quiet controller |
| CtrlState.Ctrl.Registers | reference/downstream/drivers/dsi-staging/dsi_ctrl.c:2715-2771 | What such a run leaves in the registers: bits 0, 1, 2 of DSI_CTRL are the engines; bit l + 4 is set if and only if it was at the start or some accepted host set-up of the run has lane l, bit 20 with its ECC check, 24 with its CRC check, 8 with any; all other bits are as at the start; the clock control is 0x23F from the first set-up on; once the host was initialised, under splash too, DSI_INT_CTRL has bit 25 alone and the error mask the literal bits of the last initialisation; the enable bit of the pattern generator is the test-pattern state; registers that no set-up and no pattern writes are as before |
| CtrlState.BaseCtrl | reference/downstream/drivers/dsi-staging/dsi_ctrl_hw_cmn.c:118-128 | Host set-ups only add bits to DSI_CTRL, and exactly those of their configurations |
| CtrlState.BaseClk | reference/downstream/drivers/dsi-staging/dsi_ctrl_hw_cmn.c:115-116 | The first host set-up fixes the clock control |
| CtrlState.BaseInt | reference/downstream/drivers/dsi-staging/dsi_ctrl.c:2761-2763 | Every host initialisation, also one that leaves the set-up to the boot loader, rewrites the interrupt registers; nothing else does |
| CtrlState.BaseTpg | reference/downstream/drivers/dsi-staging/dsi_ctrl_hw_cmn.c:1368-1381 | The enable bit of the pattern generator follows the state through every set-up |
| CtrlState.BaseOther | reference/downstream/drivers/dsi-staging/dsi_ctrl_hw_cmn.c:91-136 | No request writes outside its own registers; under continuous splash that is the interrupt registers only |
| CtrlState.SetUpMirrors | reference/downstream/drivers/dsi-staging/dsi_ctrl_hw_cmn.c:118-128 | Setting up the host while engines run disturbs no engine bit |
| CtrlState.WatchedMirrors | reference/downstream/drivers/dsi-staging/dsi_ctrl_hw_cmn.c:1196-1269 | Nor does setting its interrupts |
| CtrlState.ReachedIffSafe | reference/downstream/drivers/dsi-staging/dsi_ctrl.c:266-449 | The engine invariant is exact: a state is reached by some run if and only if it satisfies it |
| CtrlState.SafeIsReached | reference/downstream/drivers/dsi-staging/dsi_ctrl.c:266-449 | A run to each such state |
| CtrlState.RunSafe | reference/downstream/drivers/dsi-staging/dsi_ctrl.c:266-449 | No run leaves the invariant |
| CtrlState.StepSafe | reference/downstream/drivers/dsi-staging/dsi_ctrl.c:266-402 | No accepted request breaks it |
| CtrlState.PowerPromise | reference/downstream/drivers/dsi-staging/dsi_ctrl.c:3213-3222 | The documented promise that power changes only with all engines off is broken, in either direction, if and only if the controller engine is on and the video engine off |
| CtrlState.PowerOffWithEnginesOn | reference/downstream/drivers/dsi-staging/dsi_ctrl.c:3223-3265 | A run to a state with controller and command engine on in which switching off power is accepted |
| CtrlState.PowerOnWithEnginesOn | reference/downstream/drivers/dsi-staging/dsi_ctrl.c:3223-3265 | And one to such a state without power in which switching it on is accepted |
| CtrlState.BitMirrors | reference/downstream/drivers/dsi-staging/dsi_ctrl_hw_cmn.c:573-638 | Writing one engine bit keeps register and state in agreement and the other bits untouched |
| CtrlState.Hw.VideoEngineEn | reference/downstream/drivers/dsi-staging/dsi_ctrl_hw_cmn.c:573-587 | Only the video bit of DSI_CTRL changes |
| CtrlState.Hw.CmdEngineEn | reference/downstream/drivers/dsi-staging/dsi_ctrl_hw_cmn.c:624-638 | Only the command bit of DSI_CTRL changes |
| CtrlState.Hw.CtrlEn | reference/downstream/drivers/dsi-staging/dsi_ctrl_hw_cmn.c:594-617 | The enable bit of DSI_CTRL is written between forcing the clocks on and restoring them; nothing else changes |
| CtrlState.Hw.SoftReset | reference/downstream/drivers/dsi-staging/dsi_ctrl_hw_cmn.c:164-194 | The six writes in their order: engines off, clocks forced, reset on and off, clocks and engines restored; all registers but the reset register are as before |
| CtrlState.Ctrl.EnableSupplies | reference/downstream/drivers/dsi-staging/dsi_ctrl.c:915-943 | The supplies are right afterwards, and the call succeeds, if and only if each supply that is missing could be had before it. What a failure leaves: the reference that could not be had; and when it is the digital supply, one reference less of the host supply, even where host initialisation holds it |
| CtrlState.Ctrl.DisableSupplies | reference/downstream/drivers/dsi-staging/dsi_ctrl.c:943-957 | Undoes it, sparing the host supply while the host is initialised |
| CtrlState.Ctrl.SetPowerState | reference/downstream/drivers/dsi-staging/dsi_ctrl.c:3223-3265 | Off if and only if it is on and the video engine is off; on if and only if it is off and the supplies can be had; the whole invariant is lost if and only if power is to go on, may go on, and a supply cannot be had |
| CtrlState.Ctrl.SetHostEngineState | reference/downstream/drivers/dsi-staging/dsi_ctrl.c:3328-3358 | Accepted if and only if it is a change, power is on and, to switch off, no other engine is on; then state, register and supplies stay in agreement; what is refused changes nothing |
| CtrlState.Ctrl.SetCmdEngineState | reference/downstream/drivers/dsi-staging/dsi_ctrl.c:3370-3397 | Accepted if and only if it is a change and power and controller are on; then state, register and supplies stay in agreement; what is refused changes nothing |
| CtrlState.Ctrl.SetVidEngineState | reference/downstream/drivers/dsi-staging/dsi_ctrl.c:3409-3442 | Accepted if and only if it is a change and power and controller are on; on the way down through the reset; then state, register and supplies stay in agreement; what is refused changes nothing |
| CtrlState.Ctrl.HostInit | reference/downstream/drivers/dsi-staging/dsi_ctrl.c:2715-2771 | Host initialisation, with any configuration and under continuous splash or not, keeps supplies, engine bits and state in agreement and writes its registers; what is refused writes nothing |
| CtrlState.Ctrl.MarkHostState | reference/downstream/drivers/dsi-staging/dsi_ctrl.c:2679-2701 | Marking the host keeps the supplies balanced although the rule for the host supply depends on the mark |
| CtrlState.Ctrl.SetTpgState | reference/downstream/drivers/dsi-staging/dsi_ctrl.c:3277-3316 | Accepted if and only if it is a change and power and controller are on; keeps everything else in agreement |
| CtrlState.Hw.HostSetup | reference/downstream/drivers/dsi-staging/dsi_ctrl_hw_cmn.c:97-136 | DSI_CTRL gains bit 8, bit l + 4 for each lane l, 20 for ECC and 24 for CRC checks, and no other; the clock control becomes 0x23F; besides only the configured registers change; no reset |
| CtrlState.Hw.WatchErrors | reference/downstream/drivers/dsi-staging/dsi_ctrl.c:2761-2763 | Whatever was enabled, DSI_INT_CTRL is left with the error mask bit alone, and the errors of the configuration are unmasked |
| CtrlState.Hw.TestPattern | reference/downstream/drivers/dsi-staging/dsi_ctrl_hw_cmn.c:1277-1381 | Only the registers of the pattern generator change, to the values of an incrementing pattern for a video or a command panel; off clears the enable bit only; no reset |
| CtrlState.Ctrl.SoftReset | reference/downstream/drivers/dsi-staging/dsi_ctrl.c:2812-2823 | Changes neither state nor agreement |
| CtrlState.Ctrl.Step | reference/downstream/drivers/dsi-staging/dsi_ctrl.c:266-449 | One request over regulators that do not fail |
| StatusIrq.Interrupts.Run | reference/downstream/drivers/dsi-staging/dsi_ctrl.c:2532-2636 | After any sequence of set-ups, teardowns, enables and disables with any indices: each count is the number of unreleased requests made while there was a line, the mask has exactly the interrupts with a count, and the hardware bits are the image of the mask with bit 25 preserved. After every step the line has been on exactly when the mask is not empty, with alternating line calls, if and only if no line was made while some interrupt was still counted |
| StatusIrq.Interrupts.Step | reference/downstream/drivers/dsi-staging/dsi_ctrl.c:2532-2636 | One step, from any state whose mask shows the counts; it is what breaks the agreement of the line if and only if it makes a line over a mask that is not empty |
| StatusIrq.SecondLineIsOff | reference/downstream/drivers/dsi-staging/dsi_ctrl.c:2532-2582 | Set-up, request, teardown, set-up: the interrupt is counted and enabled, and the line is off |
| StatusIrq.Interrupts.Enable | reference/downstream/drivers/dsi-staging/dsi_ctrl.c:2584-2611 | One request counts; out-of-range indices and a missing line change nothing |
| StatusIrq.Interrupts.Disable | reference/downstream/drivers/dsi-staging/dsi_ctrl.c:2613-2636 | One release; releases beyond the requests are ignored |
| StatusIrq.Interrupts.EnableStatusInterrupts | reference/downstream/drivers/dsi-staging/dsi_ctrl_hw_cmn.c:975-1005 | Each enable bit is set exactly when its interrupt is in the mask, bit 25 is preserved, all other bits are 0 |
| StatusIrq.Consider | reference/downstream/drivers/dsi-staging/dsi_ctrl_hw_cmn.c:980-999 | One interrupt's share of that word |
| StatusIrq.BitsDiffer | reference/downstream/drivers/dsi-staging/dsi_ctrl_hw_cmn.c:980-999 | No two interrupts share an enable bit |
| StatusIrq.EnableBits | reference/downstream/drivers/dsi-staging/dsi_ctrl_hw_cmn.c:980-999 | The enable bit of each interrupt by number; the register has no others but 25 |
| StatusIrq.Interrupts.Setup | reference/downstream/drivers/dsi-staging/dsi_ctrl.c:2532-2566 | A failing platform call leaves no line; a new line agrees with the mask if and only if the mask is empty |
| StatusIrq.Interrupts.Destroy | reference/downstream/drivers/dsi-staging/dsi_ctrl.c:2572-2582 | Counts and mask outlive the line |
| ErrorStatus.Status.ReadClearRead | reference/downstream/drivers/dsi-staging/dsi_ctrl_hw_cmn.c:1017-1184 | For every content of the six write-one-to-clear registers, clearing what was reported makes the next report empty, writes ones only to set bits, and removes no bit whose error was not reported |
| ErrorStatus.Status.GetErrorStatus | reference/downstream/drivers/dsi-staging/dsi_ctrl_hw_cmn.c:1017-1096 | An error is reported if and only if its bit is set |
| ErrorStatus.Status.ClearErrorStatus | reference/downstream/drivers/dsi-staging/dsi_ctrl_hw_cmn.c:1103-1184 | Exactly the listed errors stop being active and no other bit changes; ones go only to set bits if and only if all listed errors were active |
| ErrorStatus.SelectedIff | reference/downstream/drivers/dsi-staging/dsi_ctrl_hw_cmn.c:1103-1184 | The words written select an error's bit if and only if the error is listed |
| ErrorStatus.Clears | reference/downstream/drivers/dsi-staging/dsi_ctrl_hw_cmn.c:1103-1184 | What writing those words does to every error and every bit |
| ErrorStatus.WithinIff | reference/downstream/drivers/dsi-staging/dsi_ctrl_hw_cmn.c:1103-1184 | When the words stay within the set bits |
| ErrorStatus.Located | reference/downstream/drivers/dsi-staging/dsi_ctrl_hw_cmn.c:1017-1096 | No two errors share a register bit |
| ErrorStatus.ErrorBits | reference/downstream/drivers/dsi-staging/dsi_ctrl_hw_cmn.c:1017-1096 | The register and bit of each error by number; no other errors are reported |
| CmdBatch.Transmitter.Run | reference/downstream/drivers/dsi-staging/dsi_ctrl.c:1133-1351 | For any sequence of embedded messages with any flags, in secure mode or not: what a receiver decodes from the batches sent, followed by what is still pending, is every packet accepted for fetching, once and in order; and what it decodes from the FIFO transfers is every packet accepted for the FIFO |
| CmdBatch.Transmitter.MessageTx | reference/downstream/drivers/dsi-staging/dsi_ctrl.c:1133-1351 | The buffer up to its length is always the padded packets accepted since the last command that ended a batch; a message that does not fit, or has no packet, is refused with its code and changes nothing; the last command sends the whole batch; a message that is only pending, or deferred, returns 0, any other what waiting yields |
| CmdBatch.Transmitter.Append | reference/downstream/drivers/dsi-staging/dsi_ctrl.c:1211-1214 | A packet goes behind the pending ones, which stay |
| CmdBatch.Transmitter.Flush | reference/downstream/drivers/dsi-staging/dsi_ctrl.c:1216-1221 | The whole batch is sent and nothing stays pending |
| CmdBatch.Transmitter.SendEmbedded | reference/downstream/drivers/dsi-staging/dsi_ctrl.c:1198-1221 | An accepted packet joins the batch, and ends it if it is the last command |
| CmdBatch.Transmitter.SendRaw | reference/downstream/drivers/dsi-staging/dsi_ctrl.c:1160-1177 | A non-embedded message goes out as it is; pending packets are lost |
| CmdBatch.RoundTrip | reference/downstream/drivers/dsi-staging/dsi_ctrl.c:960-1002 | A receiver reading headers, word counts and padding gets back the frames of a batch |
| CmdBatch.DecodeMore | reference/downstream/drivers/dsi-staging/dsi_ctrl.c:960-1002 | The same with anything behind the batch |
| CmdBatch.FlatAligned | reference/downstream/drivers/dsi-staging/dsi_ctrl.c:960-978 | A batch is made of whole 32-bit words |
| CmdBatch.Room | reference/downstream/drivers/dsi-staging/dsi_ctrl.c:1123-1128 | The check with the unpadded length suffices for the padded packet, since what is pending is made of whole words |
| CmdBatch.ModeIs | reference/downstream/drivers/dsi-staging/dsi_ctrl.c:1065-1088 | Secure mode sends through the FIFO; otherwise more than 252 bytes are not embedded; other flags stay |
| CmdBatch.RefusedIff | reference/downstream/drivers/dsi-staging/dsi_ctrl.c:1090-1131 | The exact limits: 60 bytes for the FIFO, 4092 and no broadcast when not embedded, 4096 for the batch with the header |
| CmdBatch.SentOrPending | reference/downstream/drivers/dsi-staging/dsi_ctrl.c:1198-1235 | No message loses, repeats or reorders a frame, on either way |
| CmdBatch.StepConserves | reference/downstream/drivers/dsi-staging/dsi_ctrl.c:1198-1221 | Nor does it in the middle of a run |
| CmdBatch.FrameIsOk | reference/downstream/drivers/dsi-staging/dsi_ctrl.c:985-997 | The long-packet flag tells a receiver the truth |
| CmdBatch.FlagsTell | reference/downstream/drivers/dsi-staging/dsi_ctrl.c:985-997 | The last byte of a header tells a long packet, one of the four read types, and the last command, and nothing else |
| CmdBatch.PaddedIs | reference/downstream/drivers/dsi-staging/dsi_ctrl.c:967-983 | Header, payload, and 0xFF up to the next word |
| CmdBatch.WordCountIs | reference/downstream/drivers/dsi-staging/dsi_ctrl.c:1179-1183 | The length of a payload is in the header low byte first |
| CmdBatch.CopyAndPad | reference/downstream/drivers/dsi-staging/dsi_ctrl.c:960-1002 | The packet with its flags and 0xFF up to the next word |
| CmdBatch.BuildPacket | reference/downstream/drivers/dsi-staging/dsi_ctrl.c:1185-1196 | The same with the mark of the last command |
| ParseSpec.RoundTrip | reference/downstream/drivers/dsi-staging/dsi_parser.c:355-410 | Parsing and counting the printed text of any tree gives back its names, statement counts and children if and only if no node has more than 20 children and no statement lies below a node whose data is empty; what follows the text is left alone |
| ParseSpec.Printed | reference/downstream/drivers/dsi-staging/dsi_parser.c:355-398 | Parsing a printed tree, anywhere in a text |
| ParseSpec.PrintedKids | reference/downstream/drivers/dsi-staging/dsi_parser.c:389-394 | The same for a list of children, up to the closing brace |
| ParseSpec.CountsTally | reference/downstream/drivers/dsi-staging/dsi_parser.c:400-410 | What the counting pass makes of the parsed tree |
| ParseSpec.CompleteIff | reference/downstream/drivers/dsi-staging/dsi_parser.c:355-410 | The exact condition for the count to be complete |
| ParseSpec.HiddenStatement | reference/downstream/drivers/dsi-staging/dsi_parser.c:400-410 | A tree whose statement is not counted, below a node without statements and with a blank first name |
| ParseSpec.DroppedChild | reference/downstream/drivers/dsi-staging/dsi_parser.c:391-393 | A tree with 21 children, of which one is lost |
| ParseSpec.CleanIs | reference/downstream/drivers/dsi-staging/dsi_parser.c:96-101 | For every text: with stars as spaces, nothing but blanks is cut off its ends, and no blank is left there |
| ParseSpec.TrimmedIsUnique | reference/downstream/drivers/dsi-staging/dsi_parser.c:96-101 | There is only one such piece |
| ParseSpec.CleanUndresses | reference/downstream/drivers/dsi-staging/dsi_parser.c:315-323 | A name without stars and blanks at its ends, with any blanks and stars put around it, comes back to the letter |
| ParseSpec.CleanIff | reference/downstream/drivers/dsi-staging/dsi_parser.c:96-101 | A name is kept to the letter if and only if it has no star and no blank at either end |
| ParseSpec.ExactRoundTrip | reference/downstream/drivers/dsi-staging/dsi_parser.c:355-410 | A complete round trip gives the names back to the letter if and only if all of them are such |
| ParseSpec.IndentedRoundTrip | reference/downstream/drivers/dsi-staging/dsi_parser.c:355-410 | A tree printed with any blanks and stars around its names comes back with the names to the letter |
| ParseSpec.StatementsInFront | reference/downstream/drivers/dsi-staging/dsi_parser.c:315-323 | Statements in front of a node, anywhere in a text, are not part of its name |
| ParseSpec.Unclosed | reference/downstream/drivers/dsi-staging/dsi_parser.c:325-352 | A brace that is never closed: the rest of the text is data |
| ParseSpec.Stray | reference/downstream/drivers/dsi-staging/dsi_parser.c:365-374 | Text without braces yields no node and is not consumed; a stray closing brace is skipped |
| ParseSpec.DataSemis | reference/downstream/drivers/dsi-staging/dsi_parser.c:66-77 | The semicolons counted in a node's data are its statements |
| Parser.ParsePrinted | reference/downstream/drivers/dsi-staging/dsi_parser.c:355-410 | The in-place parser, run on a buffer with a printed tree, leaves pointers whose strings are that tree, and touches nothing behind it |
| Parser.FindNodes | reference/downstream/drivers/dsi-staging/dsi_parser.c:355-398 | On any buffer the in-place parser yields the nodes, the stopping point and the strings that the parse of the original text defines, although it writes over the buffer as it goes; it terminates and stays inside the buffer |
| Parser.FindBody | reference/downstream/drivers/dsi-staging/dsi_parser.c:383-394 | The data and children of a node; the data of a node without statements is its first child's trimmed name |
| Parser.FindAllKids | reference/downstream/drivers/dsi-staging/dsi_parser.c:389-394 | Children found later leave earlier ones intact; those beyond 20 are parsed and dropped |
| Parser.GetBlob | reference/downstream/drivers/dsi-staging/dsi_parser.c:325-353 | Where the data ends: at the closing brace or behind the last semicolon before the first child |
| Parser.CleanName | reference/downstream/drivers/dsi-staging/dsi_parser.c:315-323 | The name is the text behind the last semicolon without the blanks and stars at its ends: nothing else is cut off, and none is left |
| Parser.LastPiece | reference/downstream/drivers/dsi-staging/dsi_parser.c:319-320 | Repeated splitting at semicolons ends at the last piece |
| Parser.Strim | reference/downstream/drivers/dsi-staging/dsi_parser.c:96-101 | Stars become spaces, in place; the string then found has no blank at either end, and nothing but blanks has been cut off |
| Parser.CountSemis | reference/downstream/drivers/dsi-staging/dsi_parser.c:66-77 | The number of semicolons of a string |
| Parser.CountProperties | reference/downstream/drivers/dsi-staging/dsi_parser.c:400-410 | The counting pass over the whole tree |
| Rates.BothRates | reference/downstream/drivers/dsi-staging/dsi_display.c:3906-4001 | For every bit clock, lane count and pixel depth the two paths agree on the byte clocks, and on the pixel clock of D-PHY; on C-PHY the dynamic one is lower by at most 3 Hz; the stored bit clocks agree if and only if the bit clock is a multiple of 8 (7 on C-PHY) |
| Rates.LinkRates | reference/downstream/drivers/dsi-staging/dsi_ctrl.c:825-913 | With an override, while the products fit in 64 bits: its rates, without rounding loss through the lanes. Without one: the pixel clock is the pixel rate of the mode, and the byte clock is the largest at which the lanes carry no more than its bits |
| Rates.CarriedBits | reference/downstream/drivers/dsi-staging/dsi_ctrl.c:876-884 | The byte clock of D-PHY is that largest rate |
| Rates.CarriedSymbols | reference/downstream/drivers/dsi-staging/dsi_ctrl.c:885-896 | So is that of C-PHY, in spite of the roundings on the way |
| Rates.DynamicRates | reference/downstream/drivers/dsi-staging/dsi_display.c:3906-4001 | The rates of the dynamic path, and its error cases |
| Rates.PixelClocksClose | reference/downstream/drivers/dsi-staging/dsi_display.c:3954-3973 | The bound of 3 Hz |
| Rates.ThreeHertzApart | reference/downstream/drivers/dsi-staging/dsi_display.c:3954-3973 | It is attained |
| Rates.CalcFrontPorch | reference/downstream/drivers/dsi-staging/dsi_display.c:4353-4403 | The porch in exact arithmetic whenever the products fit in 31 bits, and the refusals; otherwise the 32-bit result |
| Rates.PorchKeepsClock | reference/downstream/drivers/dsi-staging/dsi_display.c:4353-4403 | The new total times the new rate is within one new rate of the old total times the old rate; it is the floor of the exact total when the rate drops and the ceiling when it rises |
| Rates.FrontPorchIs | reference/downstream/drivers/dsi-staging/dsi_display.c:4353-4403 | The porch is what the rest of the total leaves of the total that keeps the clock, and is refused exactly where it leaves nothing |
| Rates.WantedIs | reference/downstream/drivers/dsi-staging/dsi_display.c:4374-4381 | That total times the new rate is the old total times the old rate, to within one new rate |
| Rates.MultFracExact | reference/downstream/drivers/dsi-staging/dsi_display.c:4380-4382 | The split multiplication is exact |
| Rates.WrapsNot | reference/downstream/drivers/dsi-staging/dsi_display.c:4380-4382 | When 32-bit arithmetic computes it |
| Modes.GetModes | reference/downstream/drivers/dsi-staging/dsi_display.c:6244-6377 | The nested loops stay inside the array that the mode count allocates if and only if it has room for the whole table, or ends after whole rows in the last timing; what they write then is the beginning of the table that TableAt describes, as far as there is room |
| Modes.FitsIff | reference/downstream/drivers/dsi-staging/dsi_panel.c:3558-3579 | When the timings counted are those used, that is if and only if there is no command timing, or one refresh rate, or a single command timing and a number of bit clocks divisible by the number of rates |
| Modes.SingleFits | reference/downstream/drivers/dsi-staging/dsi_panel.c:3549-3579 | A panel of which only one of the counted timings is used has room to spare if one of them is a video timing |
| Modes.GetModeCount | reference/downstream/drivers/dsi-staging/dsi_panel.c:3549-3579 | The loops compute the mode count of all timing nodes, in which command timings are not multiplied by the refresh rates, and how many nodes are used |
| Modes.SnugIff | reference/downstream/drivers/dsi-staging/dsi_panel.c:3577-3579 | The count is never more than the table needs, and enough if and only if there is no command timing or one refresh rate |
| Modes.CommandTimingOverruns | reference/downstream/drivers/dsi-staging/dsi_display.c:6336-6358 | One command timing at two refresh rates: one mode is allocated and two are written |
| Modes.CommandTimingFits | reference/downstream/drivers/dsi-staging/dsi_display.c:6214-6216 | With two bit clocks as well the loops stay inside, and half of the table is missing |
| Modes.TableAt | reference/downstream/drivers/dsi-staging/dsi_display.c:6289-6365 | With C bit clocks and F rates, place t C F + c F + f holds timing t at bit clock c and rate f |
| Modes.TableSize | reference/downstream/drivers/dsi-staging/dsi_display.c:6289-6365 | No place is left over |
| Modes.SlotCarries | reference/downstream/drivers/dsi-staging/dsi_display.c:6337-6365 | A mode carries the bit clock, the refresh rate and the pixel clock of its place; a command timing without a choice of bit clocks is the widened timing as it is |
| Modes.PlainTable | reference/downstream/drivers/dsi-staging/dsi_display.c:6289-6365 | Without a choice of rates and clocks the table is the widened timings |
| Modes.ReclockingForgets | reference/downstream/drivers/dsi-staging/dsi_display.c:6168-6236 | A mode set to one bit clock and then to another is as if set to the other at once, even if a porch underflowed in between |
| Modes.RateIsKept | reference/downstream/drivers/dsi-staging/dsi_display.c:6128-6145 | Where the divisor fits in 32 bits and the dividend in 64, the adjusted horizontal total is the largest that the bit clock allows at the refresh rate: within one pixel |
| Modes.TableKeepsRate | reference/downstream/drivers/dsi-staging/dsi_display.c:6197-6235 | So in every slot of the table, at the bit clock and refresh rate of the slot |
| Modes.LinesKeepRate | reference/downstream/drivers/dsi-staging/dsi_display.c:6147-6161 | The same for the vertical total: within one line |
| Modes.Units | reference/downstream/drivers/dsi-staging/dsi_display.c:6131-6155 | In which units: bits of all lanes against bits of a frame, with 16 bits for 7 symbols on C-PHY |
| Modes.Totals | reference/downstream/drivers/dsi-staging/dsi_display.c:6129-6148 | Of what totals: all parts of a line or of a column, under compression the clocks of a line |
| Modes.AdjustedTotal | reference/downstream/drivers/dsi-staging/dsi_display.c:6109-6166 | Also without room, the adjusted total is the room modulo 2^32, and nothing but the porch changes |
| Modes.PixelKhzIs | reference/downstream/drivers/dsi-staging/dsi_display.c:6208-6211 | The pixel clock is the bits of all lanes over the bits of a pixel, in whole kilohertz, for all controllers |
| Modes.AdjustModeTiming | reference/downstream/drivers/dsi-staging/dsi_display.c:6109-6166 | The porch set is what is left of the room, independent of the porch before |
| Modes.PopulateBitClks | reference/downstream/drivers/dsi-staging/dsi_display.c:6168-6236 | Appends the rows of the further bit clocks behind what was there, until the array is full; fails if and only if it ends inside a row |
| Modes.MoreRows | reference/downstream/drivers/dsi-staging/dsi_display.c:6214-6235 | The same for the second loop |
| Modes.NextRow | reference/downstream/drivers/dsi-staging/dsi_display.c:6217-6234 | Copying an adjusted row and adjusting it again gives the row of the other bit clock; it succeeds if and only if the row is inside the array |
| Modes.FirstRow | reference/downstream/drivers/dsi-staging/dsi_display.c:6197-6212 | The first row in place |
| Modes.FillRates | reference/downstream/drivers/dsi-staging/dsi_display.c:6334-6358 | One mode for each rate; earlier modes stay; it succeeds if and only if all are inside the array |
| Modes.VerticalRate | reference/downstream/drivers/dsi-staging/dsi_display.c:4461-4469 | A mode at another rate by its vertical porch: nothing else changes, and the lines of a frame times the new rate are the old ones times the old rate to within one new rate; where no porch can be short enough the old one stays |
| Modes.HorizontalRate | reference/downstream/drivers/dsi-staging/dsi_display.c:4471-4481 | The same by the horizontal porch, of which each controller has its share |
| Modes.WithoutRate | reference/downstream/drivers/dsi-staging/dsi_display.c:4443-4456 | A mode without a rate takes that of the mode on display, if nothing else differs |
| Modes.OtherRate | reference/downstream/drivers/dsi-staging/dsi_display.c:4483-4486 | Other ways of changing the rate leave the porches alone |
| Modes.SeamlessIff | reference/downstream/drivers/dsi-staging/dsi_display.c:3808-3904 | What may differ between the mode on display and the one asked about |
| Modes.SlotKeepsClock | reference/downstream/drivers/dsi-staging/dsi_display.c:6334-6365 | The table holds these porches, in every slot whose porch is not adjusted to a bit clock |
| Modes.WidenedDivides | reference/downstream/drivers/dsi-staging/dsi_display.c:1658-1680 | Dividing a widened timing among the controllers gives back the panel's timing |
| Modes.DfpsTiming | reference/downstream/drivers/dsi-staging/dsi_display.c:4416-4490 | The front porch of a mode at a new rate; a refusal keeps the old one; without a current rate that of the mode on display counts, if nothing else differs |
| Roi.ExactlyOne | reference/downstream/drivers/dsi-staging/dsi_display.c:7185-7236 | Each pixel of the panel in the stored request is shown by exactly one controller, and any other by none, also where an empty region's origin has wrapped; for a well-formed request that is the request as made |
| Roi.NothingElse | reference/downstream/drivers/dsi-staging/dsi_display.c:7185-7236 | No controller shows a pixel off the panel |
| Roi.ShowsIff | reference/downstream/drivers/dsi-staging/dsi_display.c:7185-7236 | Shifted back by its bounds, a controller's region is its band of the request |
| Roi.BandOf | reference/downstream/drivers/dsi-staging/dsi_ctrl.c:2964-2970 | The mode bounds of the controllers partition the panel |
| Roi.AreaIsConserved | reference/downstream/drivers/dsi-staging/dsi_display.c:7185-7236 | The regions together are as large as the part of the request that lies on the panel |
| Roi.RegionArea | reference/downstream/drivers/dsi-staging/dsi_display.c:7185-7236 | One controller's share of it |
| Roi.StoredIff | reference/downstream/drivers/dsi-staging/dsi_display.c:7218-7222 | A request is kept as given if and only if it is well formed: its edges are in order or one side is empty, since extents are cut to 16 bits |
| Roi.CommonIsBoth | reference/downstream/drivers/dsi-staging/dsi_display.c:162-184 | The intersection contains a pixel if and only if both rectangles do |
| Roi.RectIntersect | reference/downstream/drivers/dsi-staging/dsi_display.c:162-184 | The 16-bit result has exactly the pixels of both, and is at the origin when there are none |
| Roi.CalcCtrlRoi | reference/downstream/drivers/dsi-staging/dsi_display.c:7185-7236 | The region of one controller; its whole band if no rectangle is given; empty, with its origin wrapped, if the request misses the band; and the refusal of too many rectangles |
| Roi.Display.SetRois | reference/downstream/drivers/dsi-staging/dsi_display.c:7277-7332 | A request succeeds if and only if it has not too many rectangles and every controller it changes can be programmed; then all controllers have their regions and exactly the changed ones were programmed, in order. A failure stops at its controller, which keeps the region it was not programmed with; later ones are as before |
| Roi.FailedRequestIsForgotten | reference/downstream/drivers/dsi-staging/dsi_ctrl.c:2250-2272 | A request whose programming fails, made again, succeeds without programming anything |
| Roi.Display.StoreRoi | reference/downstream/drivers/dsi-staging/dsi_ctrl.c:2250-2272 | A region counts as changed if it differs or the mode has changed, and the mark of a changed mode goes |

## Left out

- ClkHw.Clocks.CoreEnable: the order of clocks at every primitive step is claimed for calls that succeed; a failed start unwinds to the counts before it, but in between the claim is not made.
- ClkManager.Manager.Run: covers runs in which no reference count reaches 2^32 (`Countable`); `RequestKeepsVote` shows that just the wrapping request breaks the counting. Teardown ends a run and is a separate member.
- ClkManager.Manager.Request: clients are values named by their place in the list and states outside the enumeration are not representable; handles that outlive their client, the kernel's list cells and the mutex are not part of this model.
- ClkManager.Driver.UpdateClkState: depths and callbacks are stated for failure-free calls; after a failure the contract only tells which states can be recorded.
- ClkManager.Manager.Step: steps and runs are failure-free; after failures the contracts of the single operations hold, which then promise the states but not the clock depths.
- Clock rates in dsi_clk_manager.c, the callbacks' own effects and the naming of clients.
- ReadBack.MessageRx: a panel answers a read of more than two bytes with long packets and no error report, and its data is at least as long as the read; an answer to a shorter read has at most 16 bytes. Checksums are not checked (the driver does not either), and a null receive buffer is not representable. Sending the two commands of a pass is an arbitrary outcome.
- ReadBack.CopyDown: memcpy with overlapping ranges is taken to copy upwards; the C standard does not promise it.
- CmdBatch.Transmitter.MessageTx: deferred transfers in non-embedded mode, and that mode without fetching from memory, are excluded, because they overwrite a pending batch and leave its length unaligned; messages are shorter than 65536 bytes, the hardware operations exist and memory allocation succeeds. Scheduling, waiting for and re-reading the transfer are one arbitrary result.
- CmdBatch.Transmitter.Run: messages that stay embedded.
- mipi_dsi_create_packet is not part of this model; its documented result is assumed: a 4-byte header, and for long packets the payload with its length in the header.
- CtrlState.Ctrl.Run: excludes the engine updates for continuous splash, which set the state without touching the hardware, marking other fields than the host with dsi_ctrl_update_host_state, and requests for status interrupts, which StatusIrq models. Of what a host set-up writes, the values that have no bearing on the state are arbitrary. Registers keep their values while power is off.
- Supply.Regulators.EnableAll: loads, voltages and delays are only outcomes, not values; a missing regulator array is not representable.
- StatusIrq.Interrupts.Run: event callbacks, the handler itself, counts beyond 2^31 and the rewriting of the enable bits by host initialisation (which CtrlState models) are left out.
- ErrorStatus.Status.GetErrorStatus: the error interrupt masks of the register layer are not modelled.
- Parser.FindNodes: nodes are values that point into the buffer; their separate allocation, and its failure, are not modelled. Reading property values from a parsed node would only add easy members.
- Rates.LinkRates: at least one lane; rates beyond 64 bits wrap and nothing is claimed of them; the call that stores the rates is left out.
- Rates.CalcFrontPorch: differences of refresh rates beyond 2^31 and the panel's own porch limits are left out.
- Modes.GetModes: the panel gives a mode for each timing used, and allocation succeeds; a table that is already cached is returned as it is by the code. A panel without timing nodes and one with too many are refused earlier. What happens after an access outside the array is undefined and not modelled.
- Modes.DfpsTiming: a timing without a refresh rate when no mode is on display yet, where the code follows a null pointer, is not modelled.
- Modes.AdjustModeTiming: a mode whose divisor is 0 in 32 bits gets no room instead of a division by 0.
- Roi.Display.SetRois: programming a controller, by panel commands and a new set-up, is one arbitrary outcome; of several rectangles the code uses only the first, and so does the model.
- Real delays, memory barriers and timeouts are arbitrary outcomes.
- debugfs, sysfs, device tree, platform and DRM plumbing, `dsi_drm.c`, `dsi_catalog.c`, the lane maps of `dsi_phy.c`, ULPS and PHY sequences, the Python scripts and `initramfs/init.c`: linear, finite or I/O, they would only add easy members.
