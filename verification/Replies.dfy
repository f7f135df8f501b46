/** What the service side does with a held order, and what it answers. */
module Replies {
  import opened Common
  import opened Balances
  import opened Chains
  import opened XChangeService

  predicate IsForeign(self: ParaId, s: State, d: AccountId) {
    d in s.orders && s.orders[d].paraid != self
  }

  /** `sent` answers the held order of `d`: to the chain it came from, naming its client. */
  predicate AnswersOrder(s: State, d: AccountId, sent: Sent) {
    && d in s.orders && sent.dest == s.orders[d].paraid
    && !sent.msg.NewOrder? && sent.msg.client == s.orders[d].client && sent.msg.device == d
  }

  /** No order comes or goes and no money moves; at most a foreign order's acceptance is announced. */
  predicate Keeps(self: ParaId, l: Ledger, s: State, step: Step, d: AccountId) {
    && step.state.orders == s.orders && step.ledger == l
    && (step.sent.Some? ==>
      IsForeign(self, s, d) && step.sent.value.msg.OrderAccept? && AnswersOrder(s, d, step.sent.value))
  }

  /** `d` takes an order; a foreign one moves no money. */
  predicate Takes(self: ParaId, l: Ledger, s: State, step: Step, d: AccountId, order: Order) {
    && d !in s.orders && step.state.orders == s.orders[d := order]
    && (order.paraid != self ==> step.ledger == l)
    && (step.sent.Some? ==>
      && IsForeign(self, step.state, d) && step.sent.value.msg.OrderAccept?
      && AnswersOrder(step.state, d, step.sent.value))
  }

  /** The order of `d` goes; a foreign one moves no money and is answered, a local one is not. */
  predicate Ends(self: ParaId, l: Ledger, s: State, step: Step, d: AccountId) {
    && step.state.orders == s.orders - {d}
    && (step.sent.Some? <==> IsForeign(self, s, d))
    && (step.sent.Some? ==> step.sent.value.msg.Terminal() && AnswersOrder(s, d, step.sent.value) && step.ledger == l)
  }

  /** The device a call of the service pallet is about. */
  function DeviceOf(call: Call): AccountId
    requires call.OfServicePallet()
  {
    match call
    case SOrder(_, order, _) => order.device
    case SCancel(_, device) => device
    case SAccept(id, _, _) => id
    case SDone(id, _) => id
    case SRegister(id, _, _, _) => id
    case SSetState(id, _) => id
    case SKilled(who) => who
    case SHandle(_, msg, _) => if msg.NewOrder? then msg.order.device else msg.device
  }

  /** The order a call offers to its device, if any. */
  function Offered(self: ParaId, call: Call): Option<Order> {
    match call
    case SOrder(who, order, _) => Some(order.Convert(who).(paraid := self))
    case SHandle(sender, msg, _) =>
      if msg.NewOrder? then Some(msg.order.Convert(msg.client).(paraid := sender)) else None
    case _ => None
  }

  lemma ReceiveShape(
    self: ParaId, l: Ledger, s: State, now: Moment, order: Order, d: AccountId, answer: Option<DeviceState>)
    ensures var step := ReceiveStep(self, l, s, now, order, d, answer);
      if step.result.Ok? then now < order.until && Takes(self, l, s, step, d, order)
      else step.state == s && step.sent.None?
    ensures order.paraid != self && ReceiveStep(self, l, s, now, order, d, answer).result.Err? ==>
      ReceiveStep(self, l, s, now, order, d, answer).ledger == l
  {
  }

  lemma RejectShape(
    self: ParaId, l: Ledger, s: State, now: Moment, d: AccountId, state: DeviceState, onoff: bool)
    requires d in s.devices
    ensures Ends(self, l, s, RejectStep(self, l, s, now, d, state, onoff), d)
  {
  }

  lemma DoneShape(self: ParaId, l: Ledger, s: State, now: Moment, d: AccountId, onoff: bool)
    ensures var step := DoneStep(self, l, s, now, d, onoff);
      if step.result.Ok? then Ends(self, l, s, step, d) else step.state == s && step.ledger == l && step.sent.None?
  {
  }

  /** Each call of the service pallet concerns one device: it keeps that device's order, takes
      the one offered, or ends the one held; every other order stays. */
  lemma ServiceShape(self: ParaId, c: Chain, call: Call)
    requires call.OfServicePallet()
    ensures var step, d, offered := SStep(self, c, call), DeviceOf(call), Offered(self, call);
      || Keeps(self, c.ledger, c.s, step, d)
      || (offered.Some? && ((c.now < offered.value.until && Takes(self, c.ledger, c.s, step, d, offered.value))
          || (step.state == c.s && step.sent.None? && offered.value.paraid == self)))
      || Ends(self, c.ledger, c.s, step, d)
  {
    var l, s, now, d := c.ledger, c.s, c.now, DeviceOf(call);
    match call
    case SOrder(who, order, answer) => ReceiveShape(self, l, s, now, order.Convert(who).(paraid := self), d, answer);
    case SCancel(who, _) =>
      if CancelStep(self, l, s, now, who, d).result.Ok? {
        RejectShape(self, l, s, now, d, s.devices[d].state, false);
      }
    case SAccept(_, reject, onoff) =>
      if reject && AcceptStep(self, l, s, now, d, reject, onoff).result.Ok? {
        RejectShape(self, l, s, now, d, OnOff(onoff), onoff);
      }
    case SDone(_, onoff) => DoneShape(self, l, s, now, d, onoff);
    case SRegister(_, _, _, _) =>
    case SSetState(_, _) =>
    case SKilled(_) =>
    case SHandle(sender, msg, answer) =>
      if msg.NewOrder? {
        ReceiveShape(self, l, s, now, msg.order.Convert(msg.client).(paraid := sender), d, answer);
      }
  }
}
