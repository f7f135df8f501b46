/** The events announce every order once and its end once. */
module Events {
  import opened Common
  import opened Balances
  import opened Chains
  import opened Network
  import opened Runs
  import ClientCalls
  import ServiceCalls
  import X = XChange
  import S = XChangeService
  import XE = XChangeEscrow

  function ClientWeight(e: X.Event, d: AccountId): int {
    if e.device != d then 0 else if e.NewOrder? then 1 else if e.Done? || e.Reject? then -1 else 0
  }

  /** Orders placed less orders ended, by the client pallet's events about `d`. */
  function ClientTally(events: seq<X.Event>, d: AccountId): int {
    if events == [] then 0
    else ClientTally(events[..|events| - 1], d) + ClientWeight(events[|events| - 1], d)
  }

  lemma ClientTallyAppend(events: seq<X.Event>, e: X.Event, d: AccountId)
    ensures ClientTally(events + [e], d) == ClientTally(events, d) + ClientWeight(e, d)
  {
    assert (events + [e])[..|events|] == events;
  }

  function ServiceWeight(e: S.Event, d: AccountId): int {
    if e.device != d then 0 else if e.NewOrder? then 1 else if e.Done? || e.Reject? then -1 else 0
  }

  /** The same for the service pallet's events. */
  function ServiceTally(events: seq<S.Event>, d: AccountId): int {
    if events == [] then 0
    else ServiceTally(events[..|events| - 1], d) + ServiceWeight(events[|events| - 1], d)
  }

  lemma ServiceTallyAppend(events: seq<S.Event>, e: S.Event, d: AccountId)
    ensures ServiceTally(events + [e], d) == ServiceTally(events, d) + ServiceWeight(e, d)
  {
    assert (events + [e])[..|events|] == events;
  }

  function Live(orders: map<AccountId, Order>, d: AccountId): int {
    if d in orders then 1 else 0
  }

  lemma ClientCallTallies(c: Chain, call: Call, d: AccountId)
    requires call.OfClientPallet()
    ensures var x, x' := c.x, XStep(c, call).state;
      ClientTally(x'.events, d) - Live(x'.orders, d) == ClientTally(x.events, d) - Live(x.orders, d)
  {
    hide ClientTally, Reserve, Unreserve, RepatriateReserved;
    var events := c.x.events;
    match call
    case XOrder(who, order) => ClientTallyAppend(events, X.Event.NewOrder(who, order.device), d);
    case XCancel(who, device) => ClientTallyAppend(events, X.Reject(who, device), d);
    case XRegister(id, _, _, _, _) => ClientTallyAppend(events, X.NewDevice(id), d);
    case XKilled(_) =>
    case XHandle(OrderAccept(who, device)) => ClientTallyAppend(events, X.Accept(who, device), d);
    case XHandle(OrderReject(who, device, _)) => ClientTallyAppend(events, X.Reject(who, device), d);
    case XHandle(OrderDone(who, device, _)) => ClientTallyAppend(events, X.Done(who, device), d);
    case XHandle(NewOrder(_, _)) =>
  }

  lemma ReceiveTallies(
    p: ParaId, l: Ledger, s: S.State, now: Moment, order: Order, device: AccountId, answer: Option<DeviceState>,
    d: AccountId)
    ensures var s' := S.ReceiveStep(p, l, s, now, order, device, answer).state;
      ServiceTally(s'.events, d) - Live(s'.orders, d) == ServiceTally(s.events, d) - Live(s.orders, d)
  {
    hide Reserve, ServiceTally;
    ServiceTallyAppend(s.events, S.Event.NewOrder(device), d);
    ServiceTallyAppend(s.events + [S.Event.NewOrder(device)], S.Accept(device), d);
  }

  lemma RejectTallies(
    p: ParaId, l: Ledger, s: S.State, now: Moment, device: AccountId, state: DeviceState, onoff: bool, d: AccountId)
    requires device in s.devices
    ensures var s' := S.RejectStep(p, l, s, now, device, state, onoff).state;
      ServiceTally(s'.events, d) - Live(s'.orders, d) ==
        ServiceTally(s.events, d) - Live(s.orders, d) - if device == d && d !in s.orders then 1 else 0
  {
    hide ServiceTally, Unreserve, RepatriateReserved;
    ServiceTallyAppend(s.events, S.Reject(device), d);
  }

  lemma AcceptTallies(
    p: ParaId, l: Ledger, s: S.State, now: Moment, id: AccountId, reject: bool, onoff: bool, d: AccountId)
    ensures var step := S.AcceptStep(p, l, s, now, id, reject, onoff); var s' := step.state;
      ServiceTally(s'.events, d) - Live(s'.orders, d) ==
        ServiceTally(s.events, d) - Live(s.orders, d) -
        if reject && id == d && step.result.Ok? && d !in s.orders then 1 else 0
  {
    hide ServiceTally;
    if reject && id in s.devices {
      RejectTallies(p, l, s, now, id, OnOff(onoff), onoff, d);
    }
    ServiceTallyAppend(s.events, S.Accept(id), d);
  }

  lemma DoneTallies(p: ParaId, l: Ledger, s: S.State, now: Moment, id: AccountId, onoff: bool, d: AccountId)
    ensures var s' := S.DoneStep(p, l, s, now, id, onoff).state;
      ServiceTally(s'.events, d) - Live(s'.orders, d) == ServiceTally(s.events, d) - Live(s.orders, d)
  {
    hide ServiceTally, Unreserve, RepatriateReserved;
    ServiceTallyAppend(s.events, S.Done(id), d);
  }

  lemma CancelTallies(
    p: ParaId, l: Ledger, s: S.State, now: Moment, who: AccountId, device: AccountId, d: AccountId)
    ensures var s' := S.CancelStep(p, l, s, now, who, device).state;
      ServiceTally(s'.events, d) - Live(s'.orders, d) == ServiceTally(s.events, d) - Live(s.orders, d)
  {
    hide ServiceTally, S.RejectStep;
    if device in s.devices {
      RejectTallies(p, l, s, now, device, s.devices[device].state, false, d);
    }
  }

  /** The device rejects when it has no order left to reject. */
  predicate OrphanReject(p: ParaId, c: Chain, call: Call, d: AccountId) {
    && call.SAccept? && call.reject && call.id == d && d !in c.s.orders
    && S.AcceptStep(p, c.ledger, c.s, c.now, d, true, call.onoff).result.Ok?
  }

  /** Only a rejecting `accept` with no order left ends more than was placed. */
  lemma ServiceCallTallies(p: ParaId, c: Chain, call: Call, d: AccountId)
    requires call.OfServicePallet()
    ensures var s, s' := c.s, SStep(p, c, call).state;
      ServiceTally(s'.events, d) - Live(s'.orders, d) ==
        ServiceTally(s.events, d) - Live(s.orders, d) -
        if OrphanReject(p, c, call, d) then 1 else 0
  {
    hide S.ReceiveStep, S.CancelStep, S.AcceptStep, S.DoneStep, ServiceTally;
    var l, s, now := c.ledger, c.s, c.now;
    match call
    case SOrder(who, order, answer) =>
      ReceiveTallies(p, l, s, now, order.Convert(who).(paraid := p), order.device, answer, d);
    case SHandle(sender, msg, answer) =>
      if msg.NewOrder? {
        ReceiveTallies(p, l, s, now, msg.order.Convert(msg.client).(paraid := sender), msg.order.device, answer, d);
      }
    case SCancel(who, device) => CancelTallies(p, l, s, now, who, device, d);
    case SAccept(id, reject, onoff) => AcceptTallies(p, l, s, now, id, reject, onoff, d);
    case SDone(id, onoff) => DoneTallies(p, l, s, now, id, onoff, d);
    case SRegister(id, _, _, _) => ServiceTallyAppend(s.events, S.NewDevice(id), d);
    case SSetState(_, _) =>
    case SKilled(_) =>
  }

  /** In every state of every run, of the orders the client pallet announced for a device all
      but the live one were announced done or rejected. */
  lemma {:induction false} ClientEventsTally(
    states: seq<System>, ts: seq<Transition>, p: ParaId, d: AccountId, n: nat)
    requires IsHistory(states, ts) && n <= |ts| && p in states[0].chains
    ensures p in states[n].chains
    ensures ClientTally(states[n].chains[p].x.events, d) == Live(states[n].chains[p].x.orders, d)
  {
    hide XStep, SStep, Next;
    if n > 0 {
      ClientEventsTally(states, ts, p, d, n - 1);
      StepOfChain(states[n - 1], ts[n - 1], p);
      if Acts(ts[n - 1], p) && CallAt(ts[n - 1], p).OfClientPallet() {
        ClientCallTallies(states[n - 1].chains[p], CallAt(ts[n - 1], p), d);
      }
    }
  }

  /** How often the device rejected with no order left in the first `n` steps. */
  ghost function OrphanRejects(states: seq<System>, ts: seq<Transition>, p: ParaId, d: AccountId, n: nat): nat
    requires IsSegment(states, ts) && n <= |ts|
  {
    if n == 0 then 0
    else
      OrphanRejects(states, ts, p, d, n - 1) +
      if p in states[n - 1].chains && Acts(ts[n - 1], p)
         && OrphanReject(p, states[n - 1].chains[p], CallAt(ts[n - 1], p), d) then 1 else 0
  }

  /** On the service side those rejects are announced too, and nothing else goes uncounted:
      orders announced less orders announced ended are the live one less those rejects. */
  lemma {:induction false} ServiceEventsTally(
    states: seq<System>, ts: seq<Transition>, p: ParaId, d: AccountId, n: nat)
    requires IsHistory(states, ts) && n <= |ts| && p in states[0].chains
    ensures p in states[n].chains
    ensures ServiceTally(states[n].chains[p].s.events, d) ==
      Live(states[n].chains[p].s.orders, d) - OrphanRejects(states, ts, p, d, n)
  {
    hide XStep, SStep, Next, S.AcceptStep;
    if n > 0 {
      ServiceEventsTally(states, ts, p, d, n - 1);
      StepOfChain(states[n - 1], ts[n - 1], p);
      if Acts(ts[n - 1], p) && CallAt(ts[n - 1], p).OfServicePallet() {
        ServiceCallTallies(p, states[n - 1].chains[p], CallAt(ts[n - 1], p), d);
      }
    }
  }

  // Every kind of event, counted by what it announces

  /** What each event of the client pallet announces. */
  predicate ClientAnnounces(p: ParaId, c: Chain, call: Call, e: X.Event) {
    match e
    case NewDevice(d) => call.XRegister? && call.id == d && d !in c.x.orders
    case NewOrder(who, d) =>
      call.XOrder? && call.who == who && call.order.device == d && Dispatch(p, c, call).result == Ok
    case Accept(who, d) => call == XHandle(OrderAccept(who, d))
    case Reject(who, d) =>
      || (call == XCancel(who, d) && Dispatch(p, c, call).result == Ok)
      || (call.XHandle? && call.msg.OrderReject? && call.msg.client == who && call.msg.device == d && d in c.x.orders)
    case Done(who, d) =>
      call.XHandle? && call.msg.OrderDone? && call.msg.client == who && call.msg.device == d && d in c.x.orders
  }

  /** What each event of the service pallet announces. */
  predicate ServiceAnnounces(p: ParaId, c: Chain, call: Call, e: S.Event) {
    match e
    case NewDevice(d) => call.SRegister? && call.id == d && d !in c.s.orders
    case NewOrder(d) => Offers(call, d) && Dispatch(p, c, call).result == Ok
    case Accept(d) =>
      && Dispatch(p, c, call).result == Ok
      && ((call.SAccept? && call.id == d && !call.reject)
          || (Offers(call, d) && call.answer == Some(DeviceState.Accepted)))
    case Reject(d) =>
      && Dispatch(p, c, call).result == Ok
      && ((call.SCancel? && call.device == d) || (call.SAccept? && call.id == d && call.reject))
    case Done(d) => call.SDone? && call.id == d && Dispatch(p, c, call).result == Ok
  }

  /** The call offers an order to `d`. */
  predicate Offers(call: Call, d: AccountId) {
    || (call.SOrder? && call.order.device == d)
    || (call.SHandle? && call.msg.NewOrder? && call.msg.order.device == d)
  }

  lemma ClientCallAnnounces(p: ParaId, c: Chain, call: Call, e: X.Event)
    requires call.OfClientPallet() && XE.Engaged(c.x)
    ensures var x' := Dispatch(p, c, call).chain.x;
      multiset(x'.events)[e] == multiset(c.x.events)[e] + if ClientAnnounces(p, c, call, e) then 1 else 0
  {
    hide Dispatch, Draws;
    match call
    case XOrder(who, order) => ClientCalls.OrderDoes(p, c, who, order);
    case XCancel(who, device) => ClientCalls.CancelDoes(p, c, who, device);
    case XRegister(id, para, penalty, wcd, onoff) => ClientCalls.RegisterDoes(p, c, id, para, penalty, wcd, onoff);
    case XKilled(who) => ClientCalls.KilledDoes(p, c, who);
    case XHandle(msg) =>
      hide ClientAnnounces;
      MessageAnnounces(p, c, msg, e);
  }

  lemma MessageAnnounces(p: ParaId, c: Chain, msg: XcmpMessage, e: X.Event)
    requires XE.Engaged(c.x)
    ensures var x' := Dispatch(p, c, XHandle(msg)).chain.x;
      multiset(x'.events)[e] == multiset(c.x.events)[e] + if ClientAnnounces(p, c, XHandle(msg), e) then 1 else 0
  {
    hide Dispatch, Draws;
    match msg
    case OrderAccept(who, device) => ClientCalls.AcceptanceDoes(p, c, who, device, OrderBase(0, 0, 0, 0));
    case NewOrder(who, order) => ClientCalls.AcceptanceDoes(p, c, who, 0, order);
    case OrderReject(who, device, onoff) =>
      ClientCalls.ReplyAnswers(p, c, msg);
      ClientCalls.RejectDoes(p, c, who, device, onoff);
    case OrderDone(who, device, onoff) =>
      ClientCalls.ReplyAnswers(p, c, msg);
      ClientCalls.DoneDoes(p, c, who, device, onoff);
  }

  lemma ReceiptAnnounces(
    p: ParaId, c: Chain, from: ParaId, who: AccountId, order: OrderBase, answer: Option<DeviceState>, e: S.Event)
    ensures var call := SHandle(from, NewOrder(who, order), answer);
      var s' := Dispatch(p, c, call).chain.s;
      multiset(s'.events)[e] == multiset(c.s.events)[e] + if ServiceAnnounces(p, c, call, e) then 1 else 0
  {
    hide Dispatch;
    ServiceCalls.ReceiptDoes(p, c, from, who, order, answer);
  }

  lemma EndingAnnounces(p: ParaId, c: Chain, call: Call, e: S.Event)
    requires call.SCancel? || call.SAccept? || call.SDone?
    ensures var s' := Dispatch(p, c, call).chain.s;
      multiset(s'.events)[e] == multiset(c.s.events)[e] + if ServiceAnnounces(p, c, call, e) then 1 else 0
  {
    hide Dispatch, Draws, ServiceCalls.Settles;
    match call
    case SCancel(who, device) => ServiceCalls.CancelDoes(p, c, who, device);
    case SDone(id, onoff) => ServiceCalls.DoneDoes(p, c, id, onoff);
    case SAccept(id, reject, onoff) =>
      if reject {
        ServiceCalls.RejectDoes(p, c, id, onoff);
      } else {
        ServiceCalls.AcceptDoes(p, c, id, onoff);
      }
  }

  lemma ServiceCallAnnounces(p: ParaId, c: Chain, call: Call, e: S.Event)
    requires call.OfServicePallet()
    ensures var s' := Dispatch(p, c, call).chain.s;
      multiset(s'.events)[e] == multiset(c.s.events)[e] + if ServiceAnnounces(p, c, call, e) then 1 else 0
  {
    hide Dispatch;
    match call
    case SOrder(who, order, answer) =>
      ServiceCalls.OrderIsReceipt(p, c, who, order, answer);
      ReceiptAnnounces(p, c, p, who, order, answer, e);
    case SHandle(from, msg, answer) =>
      if msg.NewOrder? {
        ReceiptAnnounces(p, c, from, msg.client, msg.order, answer, e);
      } else {
        ServiceCalls.StrayMessageDoes(p, c, from, msg, answer);
      }
    case SRegister(id, penalty, wcd, onoff) => ServiceCalls.RegisterDoes(p, c, id, penalty, wcd, onoff);
    case SSetState(id, onoff) => ServiceCalls.SetStateDoes(p, c, id, onoff);
    case SKilled(who) => ServiceCalls.KilledDoes(p, c, who);
    case _ => EndingAnnounces(p, c, call, e);
  }

  /** How many of the first `n` steps did on chain `p` what the event announces. */
  ghost function ClientCount(states: seq<System>, ts: seq<Transition>, p: ParaId, e: X.Event, n: nat): nat
    requires IsSegment(states, ts) && n <= |ts|
  {
    if n == 0 then 0
    else
      ClientCount(states, ts, p, e, n - 1) +
      if p in states[n - 1].chains && Acts(ts[n - 1], p)
         && ClientAnnounces(p, states[n - 1].chains[p], CallAt(ts[n - 1], p), e) then 1 else 0
  }

  ghost function ServiceCount(states: seq<System>, ts: seq<Transition>, p: ParaId, e: S.Event, n: nat): nat
    requires IsSegment(states, ts) && n <= |ts|
  {
    if n == 0 then 0
    else
      ServiceCount(states, ts, p, e, n - 1) +
      if p in states[n - 1].chains && Acts(ts[n - 1], p)
         && ServiceAnnounces(p, states[n - 1].chains[p], CallAt(ts[n - 1], p), e) then 1 else 0
  }

  lemma OtherCallsAnnounceNothing(p: ParaId, c: Chain, call: Call, e: X.Event, f: S.Event)
    ensures !call.OfClientPallet() ==> Dispatch(p, c, call).chain.x == c.x && !ClientAnnounces(p, c, call, e)
    ensures !call.OfServicePallet() ==> Dispatch(p, c, call).chain.s == c.s && !ServiceAnnounces(p, c, call, f)
  {
    hide XStep, SStep;
  }

  /** In every state of every history, each event was deposited exactly as often as what it
      announces happened: a Done of a client and a device as often as a done naming both met an
      order of the device, a Reject as often as a reject did, or that client's own cancel. */
  lemma {:induction false} ClientEventsTellAll(
    states: seq<System>, ts: seq<Transition>, p: ParaId, e: X.Event, n: nat)
    requires IsHistory(states, ts) && n <= |ts| && p in states[0].chains
    ensures p in states[n].chains
    ensures multiset(states[n].chains[p].x.events)[e] == ClientCount(states, ts, p, e, n)
  {
    hide Next, Enabled, Genesis, Dispatch, ClientAnnounces, Engaged;
    if n == 0 {
      GenesisIsFresh(states[0], p);
    } else {
      ClientEventsTellAll(states, ts, p, e, n - 1);
      HistoryEngaged(states, ts, p, n - 1);
      StepOfChain(states[n - 1], ts[n - 1], p);
      if Acts(ts[n - 1], p) {
        ClientStepAnnounces(p, states[n - 1].chains[p], CallAt(ts[n - 1], p), e);
      }
    }
  }

  lemma ClientStepAnnounces(p: ParaId, c: Chain, call: Call, e: X.Event)
    requires Engaged(c)
    ensures var x' := Dispatch(p, c, call).chain.x;
      multiset(x'.events)[e] == multiset(c.x.events)[e] + if ClientAnnounces(p, c, call, e) then 1 else 0
  {
    hide Dispatch, ClientAnnounces;
    OtherCallsAnnounceNothing(p, c, call, e, S.NewDevice(0));
    if call.OfClientPallet() {
      ClientCallAnnounces(p, c, call, e);
    }
  }

  /** So on the service side: a Done of a device as often as its `done` succeeded, a Reject as often
      as its rejecting `accept` or a client's cancel did. */
  lemma {:induction false} ServiceEventsTellAll(
    states: seq<System>, ts: seq<Transition>, p: ParaId, e: S.Event, n: nat)
    requires IsHistory(states, ts) && n <= |ts| && p in states[0].chains
    ensures p in states[n].chains
    ensures multiset(states[n].chains[p].s.events)[e] == ServiceCount(states, ts, p, e, n)
  {
    hide Next, Enabled, Genesis, Dispatch, ServiceAnnounces;
    if n == 0 {
      GenesisIsFresh(states[0], p);
    } else {
      ServiceEventsTellAll(states, ts, p, e, n - 1);
      StepOfChain(states[n - 1], ts[n - 1], p);
      if Acts(ts[n - 1], p) {
        ServiceStepAnnounces(p, states[n - 1].chains[p], CallAt(ts[n - 1], p), e);
      }
    }
  }

  lemma ServiceStepAnnounces(p: ParaId, c: Chain, call: Call, e: S.Event)
    ensures var s' := Dispatch(p, c, call).chain.s;
      multiset(s'.events)[e] == multiset(c.s.events)[e] + if ServiceAnnounces(p, c, call, e) then 1 else 0
  {
    hide Dispatch, ServiceAnnounces;
    OtherCallsAnnounceNothing(p, c, call, X.NewDevice(0), e);
    if call.OfServicePallet() {
      ServiceCallAnnounces(p, c, call, e);
    }
  }
}
