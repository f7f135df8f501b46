# The device-order escrow protocol

A client orders work from a registered device. The client's fee and the device's penalty are
reserved in the balances ledger of the client's chain, the order travels to the device's chain,
and the escrow is settled by the device's reply or by the client's `cancel` after the deadline.
`pallets/xchange` is the client side, `pallets/xchange-service` the device side (which also takes
orders from clients of its own chain, with its own escrow), and `pallets/common` holds what both
must agree on. This project models all three and proves what the protocol is for: money, deadlines,
two device state machines and an unreliable network fit together.

## How it is built

| file | what it holds |
|---|---|
| `Common.dfy` | device states, the two order shapes, messages, errors; totals over maps |
| `Balances.dfy` | the ledger operations the pallets call, as functions and as the shared `Currency` object; issuance |
| `XChange.dfy`, `XChangeService.dfy` | each pallet twice: as functions from state to state, and as a class whose methods change storage maps and the ledger step by step as the source does; each method is proved to do what its function says |
| `Escrow.dfy` | the abstract escrow (open, settle) and the proof that each pallet call is one exact move of it |
| `Chains.dfy` | one chain: a clock and a ledger shared by both pallets |
| `Replies.dfy` | what the service side does with a held order and what it answers |
| `Network.dfy`, `Tokens.dfy` | any number of chains and a network that loses and reorders messages but never duplicates them; what can be outstanding of an order |
| `Runs.dfy` | whole runs: invariant, refinement, reconciliation |
| `Deals.dfy` | every deal is opened once and settled at most once |
| `Histories.dfy`, `Origins.dfy`, `Devices.dfy`, `Events.dfy` | what the past of a run must have been, and what becomes of a reply; where held orders come from, and which orders nobody can answer; why a device is engaged; what the events add up to |
| `ClientCalls.dfy`, `ServiceCalls.dfy` | every call in plain terms: which check answers, and what becomes of every account, device, order, event and message |
| `Guarantees.dfy` | what single calls promise each party |
| `Promises.dfy` | what each party can bring about from every state of every run |
| `StaleReplies.dfy`, `Harm.dfy` | what goes wrong if a device registers as ready too early, and exactly when |
| `Witnesses.dfy` | runs from the genesis that show each finding |
| `Batches.dfy` | a message batch is a run of single deliveries |

The settlement calls `unreserve` and `repatriate_reserved` are best effort and the code ignores any
shortfall, so exact settlement is not a property of one body: it needs every live deal to be
backed, over both pallets of a chain at once, and on the client chain it needs every reply in
flight to name the client of the order it will meet. The first is `Chains.Backed`, the second
`Network.TokenInv`; `Runs.RunInv` proves both for every state of every run, and
`Runs.StepRefines` that under them each step of the network is one exact escrow move.

A history (`Runs.IsHistory`) is any sequence of steps from the genesis; a run of chain `p`
(`Runs.IsRun`) is one in which the devices registered with the client pallet of `p` wait, as
explained below, whatever devices do on other chains. What needs no money to be backed is proved
of every history: deadlines, where orders and deals come from, recovery of devices, issuance,
events. What does is proved of every run of the one chain it speaks of.

## What was found

* Late replies are harmless only until the device registers as ready again on the client chain
  (`Histories.LateRepliesHarmless`). `Harm.RegistrationHarmsIff` gives the exact condition: after
  such a registration another client's money can be left reserved with no order behind it if and
  only if something of the device's old order can still come back, and the chain has, free or in
  open deals, more money than the penalty. To wait is the one environment assumption of a run
  (`Network.Quiet`); a registration that the pallet refuses, or that is not as ready, may come at
  any time, and an order in flight that no chain can take any more need not be waited for.
  `StaleReplies.StaleReplyStrandsFee` shows the three steps of the harm, for a done and for a reject,
  and `Witnesses.StaleReplyFromGenesis` a run up to them.
* The fee of a done, and the refund of a reject, are drawn from whoever the message names
  (`ClientCalls.DoneDoes`, `ClientCalls.RejectDoes`). A stale reply so also takes money that backs
  another open deal of the client it names: `StaleReplies.ReplyKeepsBackingIff` says exactly when,
  and `Witnesses.StaleReplyRobsFromGenesis` is a run in which it does.
* So a reply does not settle exactly as such. `Guarantees.DonePaysOutIff` and
  `Guarantees.RejectPaysOutIff` say exactly when one does, in terms of the client it names.
* Placement is not all-or-nothing when one account is both client and device: the fee is checked
  against the free balance before the penalty is reserved. `Guarantees.ClientPlacementAtomic` and
  `Guarantees.ServicePlacementAtomic` give the exact condition under which a failed call leaves
  the penalty reserved; `Witnesses.SelfOrderStrandsPenalty` is a run where one does;
  `Runs.RunStrandsNothing` gives exact backing when no account orders from itself.
* `register` accepts any parachain id. An order for a device registered with its client's own chain,
  or with a chain that does not exist, is never answered and ends only by the client's late cancel,
  which costs the device its penalty (`Origins.UnreachableEndsByCancel`); on the own chain the service
  pallet even takes it as a local order and reserves the same amounts again
  (`Origins.OwnChainOrderReservesAgain`).
* An order implies an engaged device but not the reverse: `cancel` keeps the device's state.
* Lateness of a cross-chain order is judged by the client chain's clock at delivery, not when the
  device called `done`; `Witnesses.DoneInTimeSettledLate` is a run where a device that is done in
  time on both clocks loses its penalty.
* On the service side a rejecting `accept` is announced as a rejection even when the order is
  already gone; `Events.ServiceEventsTally` counts these.
* The comments in both `register` calls speak of a state `Busy2` that the state type does not have.

## Assumptions

Integers are natural numbers; no balance can exceed the initial issuance
(`Guarantees.DispatchConserves`), and `now + wcd` is assumed not to wrap. Every party's account
exists, `reserve` fails exactly when the free balance is too small, and the two best-effort calls
move the smaller of the request and what is reserved. The clock is a parameter and does not go
back. The `OnReceived` hook answers nothing, `Busy` or `Accepted`, as the pallet asserts; the
runtime's own hook always answers `Accepted`. A message reaches the pallet handlers that are
written for it (the runtime itself wires a generic queue instead); a message given to the other
pallet's handler is lost. A network message names the chain it was really sent from.

## Model

| member | source | states |
|---|---|---|
| Common.ConvertRoundTrip | pallets/common/src/lib.rs:40-73 | the two order conversions undo each other, except that a stored order forgets its source parachain |
| XChangePallet.Pallet.Order | pallets/xchange/src/lib.rs:152-203 | a client's order: all refusals in order, the two reserves, the stored order, the message, the busy device |
| XChangePallet.Pallet.Cancel | pallets/xchange/src/lib.rs:206-220 | a client's cancellation after the deadline, device state kept |
| XChangePallet.Pallet.Register | pallets/xchange/src/lib.rs:223-249 | (re-)registration, refused only while an order is live |
| XChangePallet.Pallet.OnAccept | pallets/xchange/src/lib.rs:253-256 | an acceptance only leaves an event |
| XChangePallet.Pallet.OnReject | pallets/xchange/src/lib.rs:258-267 | an incoming reject ends the order and sets the device on or off |
| XChangePallet.Pallet.OnDone | pallets/xchange/src/lib.rs:269-288 | an incoming done pays the fee, settles the penalty by lateness, frees the device |
| XChangePallet.Pallet.RejectOrder | pallets/xchange/src/lib.rs:289-309 | shared ending: fee back, penalty by lateness, order removed |
| XChangePallet.Pallet.OnKilledAccount | pallets/xchange/src/lib.rs:313-323 | a dead account's idle profile goes, any other is parked in Timewait |
| XChangePallet.Pallet.HandleXcmpMessages | pallets/xchange/src/lib.rs:327-356 | the loop equals the fold of single messages over the longest decodable prefix; full weight if and only if nothing was undecodable |
| XChangeServicePallet.Pallet.Order | pallets/xchange-service/src/lib.rs:147-154 | a local order is received with this chain as its source |
| XChangeServicePallet.Pallet.Cancel | pallets/xchange-service/src/lib.rs:157-171 | a client's cancellation after the deadline, device state kept |
| XChangeServicePallet.Pallet.Accept | pallets/xchange-service/src/lib.rs:173-199 | accepting a busy device's order in time, or rejecting with or without an order |
| XChangeServicePallet.Pallet.Done | pallets/xchange-service/src/lib.rs:201-214 | the device of an accepted order reports it done |
| XChangeServicePallet.Pallet.Register | pallets/xchange-service/src/lib.rs:217-240 | (re-)registration, refused only while an order is live |
| XChangeServicePallet.Pallet.SetState | pallets/xchange-service/src/lib.rs:243-259 | switching between off and ready, refused in every other state |
| XChangeServicePallet.Pallet.OrderReceived | pallets/xchange-service/src/lib.rs:263-304 | all refusals in order, the hook's answer, local escrow, placement |
| XChangeServicePallet.Pallet.OrderDone | pallets/xchange-service/src/lib.rs:305-346 | a local order is paid out, a foreign one answered |
| XChangeServicePallet.Pallet.AcceptOrder | pallets/xchange-service/src/lib.rs:348-374 | the device is accepted; a foreign order's acceptance is announced |
| XChangeServicePallet.Pallet.RejectOrder | pallets/xchange-service/src/lib.rs:376-416 | shared ending, with or without an order |
| XChangeServicePallet.Pallet.OnKilledAccount | pallets/xchange-service/src/lib.rs:420-426 | a dead account's idle profile goes, no other changes |
| XChangeServicePallet.Pallet.HandleXcmpMessages | pallets/xchange-service/src/lib.rs:430-462 | the loop equals the fold over the longest prefix of new orders; full weight if and only if that is the whole batch |
| Batches.ClientBatchIsDeliveries | pallets/xchange/src/lib.rs:331-355 | a client-side batch ends in the very state of delivering its messages one by one, so all run theorems cover batches |
| Batches.ServiceBatchIsDeliveries | pallets/xchange-service/src/lib.rs:434-461 | the same for a batch of new orders, including every message sent |
| Escrow.DonePaysOut | pallets/xchange/src/lib.rs:274-280 | on a covered deal the two best-effort calls of a done order pay exactly the fee and the penalty due |
| Escrow.RejectPaysOut | pallets/xchange/src/lib.rs:296-302 | likewise for a rejected or cancelled order |
| Escrow.MovesTrackLocked | pallets/xchange/src/lib.rs:175-176 | any escrow move changes an account's reserve exactly as it changes what its open deals need |
| XChangeEscrow.OrderMoves | pallets/xchange/src/lib.rs:152-203 | a client-side placement is one opening, a stutter, or a half-finished self-order; engagement is kept |
| XChangeEscrow.HandleMoves | pallets/xchange/src/lib.rs:252-309 | an incoming message takes the deal it ends off the book, whoever it names, and is one exact settlement if the deal is covered and its client is the one named |
| XChangeServiceEscrow.ReceiveMoves | pallets/xchange-service/src/lib.rs:263-304 | receiving is one opening for a local order and a stutter for a foreign one |
| XChangeServiceEscrow.AcceptMoves | pallets/xchange-service/src/lib.rs:173-199 | accepting is a stutter, rejecting takes a local order's deal off the book and settles it exactly if it is covered |
| XChangeServiceEscrow.DoneMoves | pallets/xchange-service/src/lib.rs:201-214 | a local done takes the deal off the book and settles it exactly if it is covered |
| Chains.BackedCovers | pallets/xchange-service/src/lib.rs:317-324 | when the sum over both pallets' open deals is backed, no best-effort call on any one deal can fall short |
| Chains.DispatchRecords | pallets/xchange-service/src/lib.rs:263-417 | whatever arrives and however little money there is, every call is one move of the book of open deals and keeps ordered devices engaged, never Timewait on the service side |
| Chains.DispatchMoves | pallets/xchange/src/lib.rs:152-309 | every call of either pallet on a sound chain is one exact move of its escrow, ledger included, and leaves every deal of both pallets backed |
| Replies.ServiceShape | pallets/xchange-service/src/lib.rs:305-416 | every service call keeps, takes or ends one order; foreign orders never move money and are answered, when they end and only then, to the chain and client they came from |
| Tokens.ClientShape | pallets/xchange/src/lib.rs:152-309 | what a client-side call can do to one device's order and readiness: only a placement on a ready device creates an order, and it is sent as stored |
| Tokens.ClientCallKeepsToken | pallets/xchange/src/lib.rs:152-309 | client-side calls keep the token invariant |
| Tokens.ServiceCallKeepsToken | pallets/xchange-service/src/lib.rs:263-416 | service-side calls keep it: a delivered order becomes a held one, a held one becomes one reply |
| Runs.StepRefines | pallets/xchange/src/lib.rs:252-309 | refinement, under the assumption of one chain alone: each step of the network is one exact escrow move of that chain or nothing for it, and keeps its invariant |
| Runs.HistoryEngaged | pallets/xchange-service/src/lib.rs:263-417 | in every state of every history every order has an engaged device, in both pallets |
| Runs.RunInv | pallets/xchange-service/src/lib.rs:263-417 | in every state of every run of a chain, with messages lost and reordered and whatever devices do elsewhere: backing, engagement, and at most one order or reply per device that can still take effect, which matches the live order or finds the device not ready |
| Runs.RunInvEverywhere | pallets/xchange-service/src/lib.rs:263-417 | so for all chains if the devices of all chains wait |
| Runs.RunOneToken | pallets/xchange/src/lib.rs:179-200 | if devices wait also for orders that can no longer be taken, there is at most one token even counting those |
| Runs.RunReconciles | pallets/xchange/src/lib.rs:269-309 | over every run an account owns what it began with plus the payoffs of settled deals, and has reserved what it began with plus exactly what its open deals in both pallets need, plus what self-orders stranded |
| Runs.RunStrandsNothing | pallets/xchange-service/src/lib.rs:287-295 | without self-orders the reserve beyond the start is exactly what the open deals need |
| DealHistories.LiveWasOpened | pallets/xchange/src/lib.rs:157-183 | in every history every open deal was opened once, in time, with the penalty and working time then in force, and has not changed since |
| DealHistories.SettledWasOpened | pallets/xchange/src/lib.rs:269-309 | every settlement settles a deal opened earlier with the same client, device, fee, penalty and deadline, and ends it |
| DealHistories.OpenedIsSettledOnce | pallets/xchange/src/lib.rs:258-309 | every deal opened is open ever after, or up to exactly one step that settles it |
| Histories.SegmentConserves | pallets/xchange-service/src/lib.rs:386-392 | every chain's issuance is the same in all states of any run, with no assumption on the environment |
| Histories.HeldWasPlacedInTime | pallets/xchange-service/src/lib.rs:266-281 | in every history every held order was placed strictly before its deadline and at least the device's working time ahead of it |
| Histories.AcceptedInTime | pallets/xchange-service/src/lib.rs:188-198 | in every history every order being worked on was accepted strictly before its deadline, by hook or by call |
| Origins.InFlightWasPlaced | pallets/xchange/src/lib.rs:171-201 | every order in flight goes back to the successful call of the client it names, for a device registered with the chain it is sent to |
| Origins.HeldWasPlaced | pallets/xchange-service/src/lib.rs:434-461 | so does every order held from another chain, unchanged, and it was delivered in time |
| Origins.UnreachableEndsByCancel | pallets/xchange/src/lib.rs:223-249 | an order for a device registered with its client's own chain or with none ends only by the client's late cancel, and the device pays |
| Origins.OwnChainOrderReservesAgain | pallets/xchange-service/src/lib.rs:287-296 | delivered to its own chain such an order is taken as local, reserves again and sends no reply |
| Histories.TerminalHasCause | pallets/xchange-service/src/lib.rs:305-416 | a done or reject message leaves a chain only by the device's call or the client's late cancel on a held foreign order |
| Histories.PaidOnlyForWork | pallets/xchange/src/lib.rs:269-288 | a client chain pays a fee only for an order with that client, fee and deadline that its device held, had accepted and reported done on another chain |
| Histories.RefundedOnlyForCause | pallets/xchange/src/lib.rs:289-309 | it refunds one only for the client's late cancel on either chain or the device's rejection |
| Histories.RejectionWasCaused | pallets/xchange/src/lib.rs:258-267 | a refund on a message goes back to the device's rejection or the same client's late cancel of that very order on the chain that held it |
| Histories.FateOfReply | pallets/xchange/src/lib.rs:258-309 | every reply sent for a held foreign order is still in flight, was lost or given to the wrong handler, met no order and changed nothing, or settled the very deal it answers, as paid if it is a done |
| Histories.FateOfWork | pallets/xchange-service/src/lib.rs:325-345 | so does every report of work done: the converse of paid only for work |
| Histories.LateRepliesHarmless | pallets/xchange/src/lib.rs:258-270 | after a cancel and until a ready registration, in every interleaving, no reply changes anything on the client chain |
| Histories.ForeignOrdersAnsweredOnce | pallets/xchange-service/src/lib.rs:325-410 | orders taken from a chain for a device equal terminal replies sent back plus the one still held |
| Events.ClientEventsTally | pallets/xchange/src/lib.rs:181-307 | orders announced equal orders announced done or rejected plus the live one |
| Events.ServiceEventsTally | pallets/xchange-service/src/lib.rs:296-413 | orders announced less orders announced ended equal the live one less the rejects made with no order left |
| Devices.WorkWasOrdered | pallets/xchange-service/src/lib.rs:263-304 | behind every busy or accepted device of any run is one order that found it ready and free; until it is set free its penalty and working time do not change, nor does it get another order |
| Devices.BusyWasBooked | pallets/xchange/src/lib.rs:152-203 | the same for every busy device on the client side |
| Promises.NoEscrowLockedForever | pallets/xchange/src/lib.rs:206-220 | from every state of every run of the client chain with a live order, whatever was lost, waiting and cancelling ends it and returns fee and penalty to the client |
| Promises.NoServiceEscrowLockedForever | pallets/xchange-service/src/lib.rs:157-171 | the same for every held order on the service side: a local one is refunded, a foreign one, in every history, answered |
| Promises.DeviceCanRecover | pallets/xchange-service/src/lib.rs:173-259 | from every state of every history a registered service device is ready or becomes so by one call of its owner |
| Promises.WorkIsPaid | pallets/xchange-service/src/lib.rs:173-214 | from every state of every run a device can accept an order not yet due, and report an accepted one done however late: a local order then pays it the fee, and the penalty back unless late; a foreign one is answered in every history |
| Promises.WorkIsPaidAcross | pallets/xchange/src/lib.rs:269-288 | from every state of every run the report of an accepted foreign order, delivered to the live order, pays it out as done |
| ClientCalls.OrderAnswers | pallets/xchange/src/lib.rs:157-176 | for each error of a placement exactly when it is the answer, in plain conditions on clock, orders, devices and free balances |
| ClientCalls.OrderDoes | pallets/xchange/src/lib.rs:175-202 | what a placement does to every account, device, order, event and message |
| ClientCalls.OrderRefusalMoves | pallets/xchange/src/lib.rs:171-176 | a refused placement moves no money but the penalty of a self-order that cannot pay both amounts |
| ClientCalls.CancelAnswers | pallets/xchange/src/lib.rs:206-220 | exactly when each error of a cancel is the answer |
| ClientCalls.CancelDoes | pallets/xchange/src/lib.rs:206-309 | what a cancel does, on any ledger |
| ClientCalls.RegisterDoes | pallets/xchange/src/lib.rs:223-249 | a registration succeeds if and only if there is no live order, and then makes exactly the profile asked for, ready or off, whatever it was, and announces it |
| ClientCalls.KilledDoes | pallets/xchange/src/lib.rs:313-323 | whose profile goes and whose is parked when an account dies |
| ClientCalls.AcceptanceDoes | pallets/xchange/src/lib.rs:253-256 | an incoming acceptance leaves the event naming client and device, and nothing else |
| ClientCalls.ReplyAnswers | pallets/xchange/src/lib.rs:258-273 | exactly when an incoming reply is refused, and how, whoever it names |
| ClientCalls.DoneDoes | pallets/xchange/src/lib.rs:269-288 | on any ledger and for any client named: the fee is drawn from him as far as his reserve goes, the penalty goes back to the device or to him if late; device, order and event |
| ClientCalls.RejectDoes | pallets/xchange/src/lib.rs:258-309 | likewise: the fee goes back to whoever is named, a late penalty to the stored client |
| ClientCalls.StrangerPays | pallets/xchange/src/lib.rs:274-280 | for three different parties: what each of them has free and reserved after a done that names a stranger |
| ServiceCalls.OrderIsReceipt | pallets/xchange-service/src/lib.rs:147-154 | a local order does exactly what its delivery from the own chain would |
| ServiceCalls.ReceiptAnswers | pallets/xchange-service/src/lib.rs:266-293 | for each error of a receipt exactly when it is the answer |
| ServiceCalls.ReceiptDoes | pallets/xchange-service/src/lib.rs:282-374 | what taking an order does to every account, device, order, event and message |
| ServiceCalls.ReceiptRefusalMoves | pallets/xchange-service/src/lib.rs:287-293 | a refused order moves no money but the penalty of a local self-order |
| ServiceCalls.CancelAnswers | pallets/xchange-service/src/lib.rs:157-171 | exactly when each error of a cancel is the answer |
| ServiceCalls.CancelDoes | pallets/xchange-service/src/lib.rs:157-416 | what a cancel does, on any ledger: refund or reply, event |
| ServiceCalls.AcceptAnswers | pallets/xchange-service/src/lib.rs:173-198 | exactly when each error of an accept is the answer |
| ServiceCalls.AcceptDoes | pallets/xchange-service/src/lib.rs:188-374 | what an accept does: device, event, message |
| ServiceCalls.RejectAnswers | pallets/xchange-service/src/lib.rs:173-187 | exactly when each error of a rejecting accept is the answer |
| ServiceCalls.RejectDoes | pallets/xchange-service/src/lib.rs:181-416 | what it does, with or without an order: refund or reply, device, and that a rejection is announced |
| ServiceCalls.DoneAnswers | pallets/xchange-service/src/lib.rs:201-214 | exactly when each error of a done is the answer |
| ServiceCalls.DoneDoes | pallets/xchange-service/src/lib.rs:201-346 | what it does, on any ledger: payment or reply, device, event |
| ServiceCalls.RegisterDoes | pallets/xchange-service/src/lib.rs:217-240 | a registration succeeds if and only if there is no live order, and then makes exactly the profile asked for, ready or off |
| ServiceCalls.SetStateDoes | pallets/xchange-service/src/lib.rs:243-259 | set_state succeeds if and only if the device is off, or ready and to be off; exactly which error otherwise; only the state changes |
| ServiceCalls.KilledDoes | pallets/xchange-service/src/lib.rs:420-426 | a profile goes if and only if it is off, and no other changes |
| Events.ClientEventsTellAll | pallets/xchange/src/lib.rs:181-307 | in every history each event was deposited exactly as often as what it announces happened, done and reject apart, with client and device |
| Events.ServiceEventsTellAll | pallets/xchange-service/src/lib.rs:296-413 | the same on the service side: Done events are successful `done` calls, Reject events successful rejects and cancels |
| StaleReplies.ReplyKeepsBackingIff | pallets/xchange/src/lib.rs:274-302 | a reply that meets an order leaves every open deal backed if and only if it names the order's client or draws on no money that backs another deal of whoever it names |
| Guarantees.DispatchConserves | pallets/xchange-service/src/lib.rs:287-293 | no call, succeeding, failing or half-done, changes the issuance, and nobody owns more than it |
| Guarantees.ClientPlacementAtomic | pallets/xchange/src/lib.rs:171-176 | a failed placement leaves a trace if and only if client and device are one account with enough for each amount but not for both |
| Guarantees.ServicePlacementAtomic | pallets/xchange-service/src/lib.rs:287-293 | the same for a local order; a foreign one never leaves a trace |
| Guarantees.ClientPlacementExact | pallets/xchange/src/lib.rs:157-200 | exactly when a placement succeeds, and the deal and message it then makes |
| Guarantees.ServicePlacementExact | pallets/xchange-service/src/lib.rs:266-303 | exactly when an order is taken, and what it then reserves, stores and announces |
| Guarantees.ClientReplySettles | pallets/xchange/src/lib.rs:258-309 | a reply to a live order never fails and pays exactly fee and penalty to the parties due |
| Guarantees.ServiceDoneExact | pallets/xchange-service/src/lib.rs:201-346 | exactly when `done` succeeds, and that it pays, on a sound chain, or answers exactly once |
| Guarantees.ServiceRejectExact | pallets/xchange-service/src/lib.rs:181-187 | exactly when a rejecting `accept` succeeds, and that it refunds, on a sound chain, or answers exactly |
| Guarantees.ServiceAcceptExact | pallets/xchange-service/src/lib.rs:188-198 | exactly when a device's `accept` succeeds, and that it only engages the device and announces a foreign order |
| Guarantees.ClientCanCancel | pallets/xchange/src/lib.rs:206-220 | after the deadline the client's cancel always succeeds and returns fee and penalty |
| Guarantees.ServiceClientCanCancel | pallets/xchange-service/src/lib.rs:157-171 | the same on the service side; a foreign order is answered with a reject |
| Guarantees.ServiceDeviceCanRecover | pallets/xchange-service/src/lib.rs:173-259 | a registered service device is ready or becomes ready by one call of its owner |
| Guarantees.ServiceStateMachine | pallets/xchange-service/src/lib.rs:145-260 | the service device's state machine: every call follows one of its edges, with terms unchanged except by registration |
| Guarantees.ServiceTouchesOneDevice | pallets/xchange-service/src/lib.rs:145-260 | no call changes another device's profile or order |
| Guarantees.ClientStateMachine | pallets/xchange/src/lib.rs:152-323 | the client side's view of the device follows its edges, for every device |
| Guarantees.PlacementsAgree | pallets/xchange-service/src/lib.rs:147-154 | both pallets place the same local order with the same money and the same answer |
| Guarantees.CancellationsAgree | pallets/xchange-service/src/lib.rs:157-171 | both pallets cancel it alike |
| Guarantees.SettlementsAgree | pallets/xchange-service/src/lib.rs:305-410 | a reply naming the stored client settles on the client side exactly as the device's call settles a local order |
| Guarantees.RejectPaysOutIff | pallets/xchange/src/lib.rs:258-309 | an incoming reject pays out the deal it ends if and only if it names the deal's client or the fee is zero |
| Guarantees.DonePaysOutIff | pallets/xchange/src/lib.rs:269-288 | an incoming done does if and only if it names the deal's client, or the fee is zero and no late penalty is due |
| StaleReplies.OutstandingCanReply | pallets/xchange-service/src/lib.rs:376-416 | whatever is outstanding of an order can become a reply in flight while the client chain does nothing |
| StaleReplies.StaleReplyStrandsFee | pallets/xchange/src/lib.rs:258-309 | with a done or reject in flight and its order gone, a ready registration, another client's order and the delivery leave that client's fee reserved with no order behind it |
| Harm.EarlyRegistrationHarms | pallets/xchange/src/lib.rs:232-245 | after a ready registration that does not wait, if there is money for the penalty and a fee, even money that is in open deals or belongs to others, such harm can follow with everybody waiting from then on |
| Harm.RegistrationHarmsIff | pallets/xchange/src/lib.rs:232-245 | harm can follow a ready registration if and only if something of the device's old order is outstanding and the chain has more money than the penalty |
| Witnesses.SelfOrderStrandsPenalty | pallets/xchange/src/lib.rs:171-176 | a run from the genesis in which a failed self-order leaves its penalty reserved with no order |
| Witnesses.DoneInTimeSettledLate | pallets/xchange/src/lib.rs:274-280 | a run from the genesis in which work done before the deadline on both clocks is settled as late |
| Witnesses.StaleReplyFromGenesis | pallets/xchange/src/lib.rs:206-288 | a run from the genesis that puts a stale reply in flight, and the three steps in which it strands another client's fee |
| Witnesses.StaleReplyRobsFromGenesis | pallets/xchange/src/lib.rs:206-288 | a run from the genesis after which a stale reply leaves a client with less reserved than another open deal of his needs |

## Left out

- pallet_balances itself: existential deposits, dust, locks and the error for a repatriation to a dead account; every party's account is assumed to exist.
- Wrap-around of `now + wcd` and of balances: naturals are used.
- SCALE bytes and XCM envelopes: an incoming item is a decoded message or undecodable.
- Weights, transaction fees, signatures and logging, and the client pallet's `test` call.
- The wiring in `runtime/src/lib.rs` and `node/`, `pallets/template` and the scripts: they configure and start the node that hosts the pallets.
- Senders other than the modelled pallets: the network carries only what they sent.
- Guarantees.SettlementsAgree: the two pallets are compared for a reply that names the stored client; `Network.TokenInv` shows that no other reply reaches a live order, and `Guarantees.DonePaysOutIff` and `Guarantees.RejectPaysOutIff` what one would do.
