/** What each party can rely on, call by call. */
module Guarantees {
  import opened Common
  import opened Balances
  import opened Chains
  import opened Network
  import Escrow
  import Replies
  import X = XChange
  import S = XChangeService
  import XE = XChangeEscrow
  import SE = XChangeServiceEscrow

  // Total issuance

  lemma OrderConserves(l: Ledger, x: X.State, now: Moment, who: AccountId, order: OrderBase)
    ensures Issuance(X.OrderStep(l, x, now, who, order).ledger) == Issuance(l)
  {
    hide Reserve, Issuance;
    if X.OrderRefusal(l, x, now, who, order).None? {
      var penalty := x.devices[order.device].penalty;
      if CanReserve(l, order.device, penalty) {
        var bailed := Reserve(l, order.device, penalty);
        ReserveConserves(l, order.device, penalty);
        if CanReserve(bailed, who, order.fee) {
          ReserveConserves(bailed, who, order.fee);
        }
      }
    }
  }

  lemma ClientCallConserves(c: Chain, call: Call)
    requires call.OfClientPallet()
    ensures Issuance(XStep(c, call).ledger) == Issuance(c.ledger)
  {
    hide X.OrderStep, Unreserve, RepatriateReserved, Issuance;
    var l, x := c.ledger, c.x;
    match call
    case XOrder(who, order) => OrderConserves(l, x, c.now, who, order);
    case XCancel(who, device) =>
      if device in x.orders && device in x.devices {
        RefundConserves(l, who, device, x.orders[device].client, x.orders[device].fee, x.devices[device].penalty);
      }
    case XRegister(_, _, _, _, _) =>
    case XKilled(_) =>
    case XHandle(OrderReject(who, device, _)) =>
      if device in x.orders && device in x.devices {
        RefundConserves(l, who, device, x.orders[device].client, x.orders[device].fee, x.devices[device].penalty);
      }
    case XHandle(OrderDone(who, device, _)) =>
      if device in x.orders && device in x.devices {
        PayConserves(l, who, device, x.orders[device].fee, x.devices[device].penalty);
      }
    case XHandle(_) =>
  }

  lemma RefundConserves(
    l: Ledger, who: AccountId, device: AccountId, to: AccountId, fee: Balance, penalty: Balance)
    ensures var refunded := Unreserve(l, who, fee);
      && Issuance(Unreserve(refunded, device, penalty)) == Issuance(l)
      && Issuance(RepatriateReserved(refunded, device, to, penalty)) == Issuance(l)
  {
    UnreserveConserves(l, who, fee);
    UnreserveConserves(Unreserve(l, who, fee), device, penalty);
    RepatriateConserves(Unreserve(l, who, fee), device, to, penalty);
  }

  lemma PayConserves(l: Ledger, who: AccountId, device: AccountId, fee: Balance, penalty: Balance)
    ensures var paid := RepatriateReserved(l, who, device, fee);
      && Issuance(Unreserve(paid, device, penalty)) == Issuance(l)
      && Issuance(RepatriateReserved(paid, device, who, penalty)) == Issuance(l)
  {
    RepatriateConserves(l, who, device, fee);
    UnreserveConserves(RepatriateReserved(l, who, device, fee), device, penalty);
    RepatriateConserves(RepatriateReserved(l, who, device, fee), device, who, penalty);
  }

  lemma ReceiveConserves(
    self: ParaId, l: Ledger, s: S.State, now: Moment, order: Order, device: AccountId, answer: Option<DeviceState>)
    ensures Issuance(S.ReceiveStep(self, l, s, now, order, device, answer).ledger) == Issuance(l)
  {
    var refusal := S.ReceiveRefusal(self, l, s, now, order, device, answer);
    if refusal.None? && CanReserve(l, device, s.devices[device].penalty) {
      var bailed := Reserve(l, device, s.devices[device].penalty);
      ReserveConserves(l, device, s.devices[device].penalty);
      if CanReserve(bailed, order.client, order.fee) {
        ReserveConserves(bailed, order.client, order.fee);
      }
    }
  }

  lemma RejectConserves(
    self: ParaId, l: Ledger, s: S.State, now: Moment, d: AccountId, state: DeviceState, onoff: bool)
    requires d in s.devices
    ensures Issuance(S.RejectStep(self, l, s, now, d, state, onoff).ledger) == Issuance(l)
  {
    if d in s.orders {
      RefundConserves(l, s.orders[d].client, d, s.orders[d].client, s.orders[d].fee, s.devices[d].penalty);
    }
  }

  lemma DoneConserves(self: ParaId, l: Ledger, s: S.State, now: Moment, d: AccountId, onoff: bool)
    ensures Issuance(S.DoneStep(self, l, s, now, d, onoff).ledger) == Issuance(l)
  {
    if d in s.orders && d in s.devices {
      PayConserves(l, s.orders[d].client, d, s.orders[d].fee, s.devices[d].penalty);
    }
  }

  lemma ServiceCallConserves(self: ParaId, c: Chain, call: Call)
    requires call.OfServicePallet()
    ensures Issuance(SStep(self, c, call).ledger) == Issuance(c.ledger)
  {
    var l, s, now := c.ledger, c.s, c.now;
    match call
    case SOrder(who, order, answer) =>
      ReceiveConserves(self, l, s, now, order.Convert(who).(paraid := self), order.device, answer);
    case SCancel(_, d) =>
      if d in s.devices {
        RejectConserves(self, l, s, now, d, s.devices[d].state, false);
      }
    case SAccept(d, _, onoff) =>
      if d in s.devices {
        RejectConserves(self, l, s, now, d, OnOff(onoff), onoff);
      }
    case SDone(d, onoff) => DoneConserves(self, l, s, now, d, onoff);
    case SHandle(sender, msg, answer) =>
      if msg.NewOrder? {
        ReceiveConserves(self, l, s, now,
          msg.order.Convert(msg.client).(paraid := sender), msg.order.device, answer);
      }
    case _ =>
  }

  /** No call, whether it succeeds, fails or stops half-way, creates or destroys money; this
      needs no invariant. */
  lemma DispatchConserves(self: ParaId, c: Chain, call: Call, a: AccountId)
    ensures var l' := Dispatch(self, c, call).chain.ledger;
      Issuance(l') == Issuance(c.ledger) && Wealth(l', a) <= Issuance(c.ledger)
  {
    if call.OfClientPallet() {
      ClientCallConserves(c, call);
    } else if call.OfServicePallet() {
      ServiceCallConserves(self, c, call);
    } else if call.Transfer? && call.amount <= Free(c.ledger, call.from) {
      TransferConserves(c.ledger, call.from, call.to, call.amount);
    }
    NobodyExceedsIssuance(Dispatch(self, c, call).chain.ledger, a);
  }

  // Placement is all or nothing, unless client and device are one account

  /** A failed client-side placement leaves a trace exactly when one account, being both
      client and device, has enough for the fee and for the penalty but not for both. */
  lemma ClientPlacementAtomic(l: Ledger, x: X.State, now: Moment, who: AccountId, order: OrderBase)
    ensures var step := X.OrderStep(l, x, now, who, order);
      && (step.result.Err? ==> step.state == x && step.sent.None?)
      && (step.result.Err? && step.ledger != l <==>
        && X.OrderRefusal(l, x, now, who, order).None? && who == order.device
        && var penalty := x.devices[who].penalty;
        0 < penalty <= Free(l, who) < order.fee + penalty)
  {
  }

  /** The same for the service side; a foreign order reserves nothing and never leaves a trace. */
  lemma ServicePlacementAtomic(
    self: ParaId, l: Ledger, s: S.State, now: Moment, order: Order, device: AccountId, answer: Option<DeviceState>)
    ensures var step := S.ReceiveStep(self, l, s, now, order, device, answer);
      && (step.result.Err? ==> step.state == s && step.sent.None?)
      && (step.result.Err? && step.ledger != l <==>
        && S.ReceiveRefusal(self, l, s, now, order, device, answer).None?
        && order.paraid == self && order.client == device
        && var penalty := s.devices[device].penalty;
        0 < penalty <= Free(l, device) < order.fee + penalty)
  {
  }

  // What a placement does when it succeeds

  /** A client-side placement succeeds exactly when the device is free and ready, there is
      time, and both parties can pay, out of one balance if they are one account; and then it
      opens that deal and sends that order to the device's chain. */
  lemma ClientPlacementExact(l: Ledger, x: X.State, now: Moment, who: AccountId, order: OrderBase)
    ensures var step, d := X.OrderStep(l, x, now, who, order), order.device;
      step.result.Ok? <==>
        && d !in x.orders && X.IsReady(x, d)
        && now < order.until && now + x.devices[d].wcd <= order.until
        && order.fee <= Free(l, who) && x.devices[d].penalty <= Free(l, d)
        && (who == d ==> order.fee + x.devices[d].penalty <= Free(l, d))
    ensures var step, d := X.OrderStep(l, x, now, who, order), order.device;
      step.result.Ok? ==>
        && d in step.state.orders && d in step.state.devices && step.state.devices[d].state == Busy
        && XE.DealOf(step.state, d)
          == Escrow.Deal(who, d, order.fee, x.devices[d].penalty, order.until, x.devices[d].wcd)
        && Escrow.SetAside(l, XE.DealOf(step.state, d), step.ledger)
        && step.sent == Some(Sent(x.devices[d].para, NewOrder(who, order)))
        && step.sent.value.msg == NewOrder(who, step.state.orders[d].Convert(d))
  {
    hide Reserve;
  }

  /** The same for the service side: only a local order needs money; the device enters the
      state its hook answered; only a foreign order's acceptance is announced. */
  lemma ServicePlacementExact(
    self: ParaId, l: Ledger, s: S.State, now: Moment, order: Order, d: AccountId, answer: Option<DeviceState>)
    requires S.HookAnswer(answer)
    ensures var step := S.ReceiveStep(self, l, s, now, order, d, answer);
      step.result.Ok? <==>
        && d !in s.orders && S.IsReady(s, d) && answer.Some?
        && now < order.until && now + s.devices[d].wcd <= order.until
        && (order.paraid == self ==>
          && order.fee <= Free(l, order.client) && s.devices[d].penalty <= Free(l, d)
          && (order.client == d ==> order.fee + s.devices[d].penalty <= Free(l, d)))
    ensures var step := S.ReceiveStep(self, l, s, now, order, d, answer);
      step.result.Ok? ==>
        && step.state.orders == s.orders[d := order]
        && step.state.devices == s.devices[d := s.devices[d].(state := answer.value)]
        && (if order.paraid == self then Escrow.SetAside(l, SE.DealOf(step.state, d), step.ledger)
            else step.ledger == l)
        && (step.sent.Some? <==> order.paraid != self && answer == Some(DeviceState.Accepted))
        && (step.sent.Some? ==> step.sent.value == Sent(order.paraid, OrderAccept(order.client, d)))
  {
    hide Reserve;
  }

  // What an ending does

  /** A reply that names the client of a live order always settles it: the fee goes to the
      device for a done and back to the client for a reject, the penalty goes to the client if
      it is late by this chain's clock; the order goes and the device is set as the reply says. */
  lemma ClientReplySettles(p: ParaId, c: Chain, msg: XcmpMessage)
    requires Sound(p, c) && msg.Terminal() && msg.device in c.x.orders
    requires msg.client == c.x.orders[msg.device].client
    ensures var d, step := msg.device, X.HandleStep(c.ledger, c.x, c.now, msg);
      && step.result == Ok && step.sent == None
      && step.state.orders == c.x.orders - {d} && d in c.x.devices
      && step.state.devices == c.x.devices[d := c.x.devices[d].(state := OnOff(msg.onoff))]
      && Escrow.PaidOut(
        c.ledger, XE.DealOf(c.x, d), msg.OrderDone?, c.now >= c.x.orders[d].until, step.ledger)
  {
    BackedCovers(p, c);
    XE.HandleMoves(c.ledger, c.x, c.now, msg);
  }

  /** An incoming reject pays out the deal it ends exactly when it names the deal's client, or
      there is no fee to give back. */
  lemma RejectPaysOutIff(p: ParaId, c: Chain, who: AccountId, d: AccountId, onoff: bool)
    requires Sound(p, c) && d in c.x.orders
    ensures d in c.x.devices
    ensures var deal, step := XE.DealOf(c.x, d), X.OnRejectStep(c.ledger, c.x, c.now, who, d, onoff);
      && step.result == Ok && d !in step.state.orders
      && (Escrow.PaidOut(c.ledger, deal, false, c.now >= deal.until, step.ledger) <==>
        who == deal.client || deal.fee == 0)
  {
    BackedCovers(p, c);
    var deal, step := XE.DealOf(c.x, d), X.OnRejectStep(c.ledger, c.x, c.now, who, d, onoff);
    assert XE.Deals(c.x)[d] == deal;
    if who == deal.client || deal.fee == 0 {
      Escrow.RejectPaysOut(c.ledger, deal, c.now >= deal.until);
    } else {
      assert Reserved(step.ledger, deal.client) > Reserved(c.ledger, deal.client) - Escrow.Share(deal, deal.client);
    }
  }

  /** An incoming done pays out the deal it ends exactly when it names the deal's client, or
      neither a fee nor a late penalty goes the wrong way. */
  lemma DonePaysOutIff(p: ParaId, c: Chain, who: AccountId, d: AccountId, onoff: bool)
    requires Sound(p, c) && d in c.x.orders
    ensures d in c.x.devices
    ensures var deal, step := XE.DealOf(c.x, d), X.OnDoneStep(c.ledger, c.x, c.now, who, d, onoff);
      var late := c.now >= deal.until;
      && step.result == Ok && d !in step.state.orders
      && (Escrow.PaidOut(c.ledger, deal, true, late, step.ledger) <==>
        who == deal.client || (deal.fee == 0 && (!late || deal.penalty == 0)))
  {
    BackedCovers(p, c);
    var deal, step := XE.DealOf(c.x, d), X.OnDoneStep(c.ledger, c.x, c.now, who, d, onoff);
    var late := c.now >= deal.until;
    assert XE.Deals(c.x)[d] == deal;
    if who == deal.client || (deal.fee == 0 && (!late || deal.penalty == 0)) {
      Escrow.DonePaysOut(c.ledger, deal, late);
    } else if deal.fee > 0 {
      assert Reserved(step.ledger, deal.client) > Reserved(c.ledger, deal.client) - Escrow.Share(deal, deal.client);
    } else {
      assert Free(step.ledger, who) != Free(c.ledger, who) + Escrow.Award(deal, true, late, who);
    }
  }

  /** How the service side ends the order of `d`: a local one is paid out, a foreign one is
      answered and moves no money. */
  ghost predicate EndsOrder(p: ParaId, c: Chain, step: S.Step, d: AccountId, paid: bool, onoff: bool)
    requires d in c.s.orders && d in c.s.devices
  {
    var order := c.s.orders[d];
    && step.result == Ok && step.state.orders == c.s.orders - {d}
    && step.state.devices == c.s.devices[d := c.s.devices[d].(state := OnOff(onoff))]
    && if order.paraid == p then
         step.sent == None
         && Escrow.PaidOut(c.ledger, SE.DealOf(c.s, d), paid, c.now >= order.until, step.ledger)
       else
         step.ledger == c.ledger
         && step.sent == Some(Sent(order.paraid,
           if paid then OrderDone(order.client, d, onoff) else OrderReject(order.client, d, onoff)))
  }

  /** `done` succeeds exactly on an accepted order, however late, and then ends it as done; only
      a local order's payment needs the books to be backed. */
  lemma ServiceDoneExact(p: ParaId, c: Chain, d: AccountId, onoff: bool)
    ensures var step := S.DoneStep(p, c.ledger, c.s, c.now, d, onoff);
      && (step.result.Ok? <==>
        d in c.s.orders && d in c.s.devices && c.s.devices[d].state == DeviceState.Accepted)
      && (step.result.Ok? && (c.s.orders[d].paraid == p ==> Sound(p, c)) ==> EndsOrder(p, c, step, d, true, onoff))
  {
    hide Unreserve, RepatriateReserved, Escrow.PaidOut;
    if Sound(p, c) {
      BackedCovers(p, c);
      SE.DoneMoves(p, c.ledger, c.s, c.now, d, onoff);
    }
  }

  /** A rejecting `accept` succeeds exactly on an engaged device; a live order is ended as
      rejected, and without one the device is still set free. */
  lemma ServiceRejectExact(p: ParaId, c: Chain, d: AccountId, onoff: bool)
    ensures var step := S.AcceptStep(p, c.ledger, c.s, c.now, d, true, onoff);
      && (step.result.Ok? <==>
        d in c.s.devices && (c.s.devices[d].state == Busy || c.s.devices[d].state == DeviceState.Accepted))
      && (step.result.Ok? && d in c.s.orders && (c.s.orders[d].paraid == p ==> Sound(p, c)) ==>
        EndsOrder(p, c, step, d, false, onoff))
      && (step.result.Ok? && d !in c.s.orders ==>
        step.ledger == c.ledger && step.sent == None
        && step.state.devices == c.s.devices[d := c.s.devices[d].(state := OnOff(onoff))])
  {
    hide Unreserve, RepatriateReserved, Escrow.PaidOut;
    if Sound(p, c) {
      BackedCovers(p, c);
      SE.AcceptMoves(p, c.ledger, c.s, c.now, d, true, onoff);
    }
  }

  /** `accept` without rejecting succeeds exactly on a busy device whose order is not yet due;
      it announces a foreign order and changes nothing else. */
  lemma ServiceAcceptExact(p: ParaId, c: Chain, d: AccountId, onoff: bool)
    ensures var step := S.AcceptStep(p, c.ledger, c.s, c.now, d, false, onoff);
      && (step.result.Ok? <==>
        && d in c.s.orders && d in c.s.devices && c.s.devices[d].state == Busy
        && c.now < c.s.orders[d].until)
      && step.ledger == c.ledger && step.state.orders == c.s.orders
      && (step.result.Ok? ==>
        && step.state.devices == c.s.devices[d := c.s.devices[d].(state := DeviceState.Accepted)]
        && step.sent == if c.s.orders[d].paraid == p then None
                        else Some(Sent(c.s.orders[d].paraid, OrderAccept(c.s.orders[d].client, d))))
  {
  }

  // The device state machines

  function ServiceProfile(s: S.State, d: AccountId): Option<S.DeviceProfile> {
    if d in s.devices then Some(s.devices[d]) else None
  }

  function ClientProfile(x: X.State, d: AccountId): Option<X.DeviceProfile> {
    if d in x.devices then Some(x.devices[d]) else None
  }

  /** The states a call may take its service-side device from and to. */
  predicate ServiceEdge(call: Call, from: DeviceState, to: DeviceState) {
    match call
    case SSetState(_, onoff) => (from == Off && to == Ready && onoff) || (from == Ready && to == Off && !onoff)
    case SOrder(_, _, answer) => from == Ready && answer == Some(to)
    case SHandle(_, _, answer) => from == Ready && answer == Some(to)
    case SAccept(_, reject, onoff) =>
      if reject then (from == Busy || from == DeviceState.Accepted) && to == OnOff(onoff)
      else from == Busy && to == DeviceState.Accepted
    case SDone(_, onoff) => from == DeviceState.Accepted && to == OnOff(onoff)
    case _ => false
  }

  /** The states a call may take its client-side device from and to. */
  predicate ClientEdge(call: Call, from: DeviceState, to: DeviceState) {
    match call
    case XOrder(_, _) => from == Ready && to == Busy
    case XHandle(msg) => msg.Terminal() && (from == Busy || from == Timewait) && to == OnOff(msg.onoff)
    case XKilled(_) => from != Off && to == Timewait
    case _ => false
  }

  /** `s'` leaves the device as it was, or moves it along an edge with its terms unchanged. */
  predicate ServiceWalks(call: Call, s: S.State, s': S.State, d: AccountId) {
    var from, to := ServiceProfile(s, d), ServiceProfile(s', d);
    || from == to
    || (from.Some? && to.Some? && to.value == from.value.(state := to.value.state)
        && ServiceEdge(call, from.value.state, to.value.state))
  }

  lemma ReceiveWalks(
    p: ParaId, l: Ledger, s: S.State, now: Moment, order: Order, answer: Option<DeviceState>, call: Call, d: AccountId)
    requires (call.SOrder? || call.SHandle?) && call.answer == answer
    ensures ServiceWalks(call, s, S.ReceiveStep(p, l, s, now, order, d, answer).state, d)
  {
    hide Reserve;
  }

  lemma AcceptWalks(p: ParaId, l: Ledger, s: S.State, now: Moment, d: AccountId, reject: bool, onoff: bool)
    ensures ServiceWalks(
      SAccept(d, reject, onoff), s, S.AcceptStep(p, l, s, now, d, reject, onoff).state, d)
  {
    hide Unreserve, RepatriateReserved;
  }

  lemma DoneWalks(p: ParaId, l: Ledger, s: S.State, now: Moment, d: AccountId, onoff: bool)
    ensures ServiceWalks(SDone(d, onoff), s, S.DoneStep(p, l, s, now, d, onoff).state, d)
  {
    hide Unreserve, RepatriateReserved;
  }

  lemma CancelWalks(p: ParaId, l: Ledger, s: S.State, now: Moment, who: AccountId, d: AccountId)
    ensures ServiceProfile(S.CancelStep(p, l, s, now, who, d).state, d) == ServiceProfile(s, d)
  {
    hide Unreserve, RepatriateReserved;
  }

  /** Every call leaves its service-side device as it was, moves it along an edge with its
      terms unchanged, registers it when it has no order, or drops it when it is off. */
  lemma ServiceStateMachine(p: ParaId, c: Chain, call: Call)
    requires call.OfServicePallet()
    ensures var s, s', d := c.s, SStep(p, c, call).state, Replies.DeviceOf(call);
      || ServiceWalks(call, s, s', d)
      || (call.SRegister? && d !in s.orders
          && ServiceProfile(s', d) == Some(S.DeviceProfile(call.penalty, call.wcd, OnOff(call.onoff))))
      || (call.SKilled? && d in s.devices && s.devices[d].state == Off && d !in s'.devices)
  {
    hide S.ReceiveStep, S.CancelStep, S.AcceptStep, S.DoneStep;
    var l, s, now := c.ledger, c.s, c.now;
    match call
    case SOrder(who, order, answer) =>
      ReceiveWalks(p, l, s, now, order.Convert(who).(paraid := p), answer, call, order.device);
    case SHandle(sender, msg, answer) =>
      if msg.NewOrder? {
        ReceiveWalks(p, l, s, now, msg.order.Convert(msg.client).(paraid := sender), answer, call, msg.order.device);
      }
    case SCancel(who, device) => CancelWalks(p, l, s, now, who, device);
    case SAccept(id, reject, onoff) => AcceptWalks(p, l, s, now, id, reject, onoff);
    case SDone(id, onoff) => DoneWalks(p, l, s, now, id, onoff);
    case SRegister(_, _, _, _) =>
    case SSetState(_, _) =>
    case SKilled(_) =>
  }

  lemma ServiceProfileStays(p: ParaId, c: Chain, call: Call, d: AccountId)
    requires call.OfServicePallet() && Replies.DeviceOf(call) != d
    ensures ServiceProfile(SStep(p, c, call).state, d) == ServiceProfile(c.s, d)
  {
    hide S.ReceiveRefusal, Reserve, Unreserve, RepatriateReserved;
  }

  /** No call touches any device but the one it is about. */
  lemma ServiceTouchesOneDevice(p: ParaId, c: Chain, call: Call, d: AccountId)
    requires call.OfServicePallet() && Replies.DeviceOf(call) != d
    ensures ServiceProfile(SStep(p, c, call).state, d) == ServiceProfile(c.s, d)
    ensures d in SStep(p, c, call).state.orders <==> d in c.s.orders
    ensures d in c.s.orders ==> SStep(p, c, call).state.orders[d] == c.s.orders[d]
  {
    hide SStep;
    ServiceProfileStays(p, c, call, d);
    Replies.ServiceShape(p, c, call);
  }

  /** The same for the client side, where a reply may also find the device abandoned. */
  lemma ClientStateMachine(c: Chain, call: Call, d: AccountId)
    requires XE.Engaged(c.x) && call.OfClientPallet()
    ensures var from, to := ClientProfile(c.x, d), ClientProfile(XStep(c, call).state, d);
      || from == to
      || (if call.XRegister? then
            call.id == d && d !in c.x.orders
            && to == Some(X.DeviceProfile(call.penalty, call.wcd, call.para, OnOff(call.onoff)))
          else if call.XKilled? && to.None? then call.who == d && from.Some? && from.value.state == Off
          else
            && from.Some? && to.Some? && to.value == from.value.(state := to.value.state)
            && ClientEdge(call, from.value.state, to.value.state)
            && (call.XOrder? ==> call.order.device == d)
            && (call.XHandle? ==> call.msg.device == d)
            && (call.XKilled? ==> call.who == d))
  {
    hide Reserve, Unreserve, RepatriateReserved;
  }

  // No escrow is locked for ever

  /** Once its deadline has passed, the client of a live order can cancel it and gets back the
      fee and the device's penalty, whatever became of the messages. */
  lemma ClientCanCancel(p: ParaId, c: Chain, d: AccountId)
    requires Sound(p, c) && d in c.x.orders && c.now >= c.x.orders[d].until
    ensures d in c.x.devices
    ensures var order := c.x.orders[d];
      var step := X.CancelStep(c.ledger, c.x, c.now, order.client, d);
      && step.result == Ok && d !in step.state.orders && step.state.devices == c.x.devices
      && Escrow.PaidOut(c.ledger, XE.DealOf(c.x, d), false, true, step.ledger)
  {
    BackedCovers(p, c);
    var order := c.x.orders[d];
    XE.CancelMoves(c.ledger, c.x, c.now, order.client, d);
    assert c.x.devices[d := c.x.devices[d]] == c.x.devices;
  }

  /** The same on the service side; a foreign order is answered instead of paid out, and for
      that the books need not be backed. */
  lemma ServiceClientCanCancel(p: ParaId, c: Chain, d: AccountId)
    requires SE.Engaged(c.s) && d in c.s.orders && c.now >= c.s.orders[d].until
    requires c.s.orders[d].paraid == p ==> Sound(p, c)
    ensures d in c.s.devices
    ensures var order := c.s.orders[d];
      var step := S.CancelStep(p, c.ledger, c.s, c.now, order.client, d);
      && step.result == Ok && d !in step.state.orders && step.state.devices == c.s.devices
      && if order.paraid == p then
           Escrow.PaidOut(c.ledger, SE.DealOf(c.s, d), false, true, step.ledger) && step.sent.None?
         else
           step.ledger == c.ledger && step.sent == Some(Sent(order.paraid, OrderReject(order.client, d, false)))
  {
    var order := c.s.orders[d];
    if order.paraid == p {
      BackedCovers(p, c);
      SE.CancelMoves(p, c.ledger, c.s, c.now, order.client, d);
    }
    assert c.s.devices[d := c.s.devices[d]] == c.s.devices;
  }

  /** A registered service device is ready, or one call of its owner makes it ready. */
  lemma ServiceDeviceCanRecover(p: ParaId, c: Chain, d: AccountId)
    requires SE.Engaged(c.s) && d in c.s.devices
    ensures
      || S.IsReady(c.s, d)
      || (var step := S.SetStateStep(c.ledger, c.s, d, true); step.result == Ok && S.IsReady(step.state, d))
      || (var step := S.AcceptStep(p, c.ledger, c.s, c.now, d, true, true);
          step.result == Ok && S.IsReady(step.state, d) && d !in step.state.orders)
  {
  }

  // The two implementations of the escrow agree

  /** Device `d` is registered alike with both pallets and has the same local order, or none. */
  ghost predicate Mirrored(self: ParaId, x: X.State, s: S.State, d: AccountId) {
    && (d in x.devices <==> d in s.devices)
    && (d in x.devices ==> x.devices[d].penalty == s.devices[d].penalty && x.devices[d].wcd == s.devices[d].wcd)
    && (d in x.orders <==> d in s.orders)
    && (d in x.orders ==>
      && s.orders[d] == x.orders[d].(paraid := self)
      && d in x.devices)
  }

  /** Same money, same answer, and still alike. */
  ghost predicate Agree(self: ParaId, xs: X.Step, ss: S.Step, d: AccountId) {
    && xs.ledger == ss.ledger && xs.result == ss.result && Mirrored(self, xs.state, ss.state, d)
  }

  ghost predicate SameState(xs: X.Step, ss: S.Step, d: AccountId) {
    d in xs.state.devices && d in ss.state.devices && xs.state.devices[d].state == ss.state.devices[d].state
  }

  lemma PlacementsAgree(
    self: ParaId, l: Ledger, x: X.State, s: S.State, now: Moment, who: AccountId, order: OrderBase,
    answer: Option<DeviceState>)
    requires Mirrored(self, x, s, order.device) && answer.Some?
    requires X.IsReady(x, order.device) <==> S.IsReady(s, order.device)
    ensures Agree(
      self, X.OrderStep(l, x, now, who, order), S.OrderStep(self, l, s, now, who, order, answer), order.device)
  {
  }

  lemma CancellationsAgree(
    self: ParaId, l: Ledger, x: X.State, s: S.State, now: Moment, who: AccountId, d: AccountId)
    requires Mirrored(self, x, s, d)
    ensures Agree(self, X.CancelStep(l, x, now, who, d), S.CancelStep(self, l, s, now, who, d), d)
  {
  }

  /** A reply naming the stored client settles the client-side order as the device's own call
      settles the local one. */
  lemma SettlementsAgree(
    self: ParaId, l: Ledger, x: X.State, s: S.State, now: Moment, d: AccountId, onoff: bool)
    requires Mirrored(self, x, s, d) && d in x.orders
    requires s.devices[d].state == Busy || s.devices[d].state == DeviceState.Accepted
    ensures s.devices[d].state == DeviceState.Accepted ==>
      var who := x.orders[d].client;
      && var xs, ss := X.OnDoneStep(l, x, now, who, d, onoff), S.DoneStep(self, l, s, now, d, onoff);
      && Agree(self, xs, ss, d) && SameState(xs, ss, d) && d !in xs.state.orders
    ensures var who := x.orders[d].client;
      && var xs, ss := X.OnRejectStep(l, x, now, who, d, onoff), S.AcceptStep(self, l, s, now, d, true, onoff);
      && Agree(self, xs, ss, d) && SameState(xs, ss, d) && d !in xs.state.orders
  {
  }
}
