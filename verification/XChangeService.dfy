/** The service side, pallets/xchange-service/src/lib.rs, as functions from one state to the
    next. `self` is the parachain the pallet runs on: an order from there is local and is
    escrowed here, any other order is foreign and only answered by message. */
module XChangeService {
  import opened Common
  import opened Balances

  datatype DeviceProfile = DeviceProfile(penalty: Balance, wcd: Moment, state: DeviceState)

  datatype Event =
    | NewDevice(device: AccountId)
    | NewOrder(device: AccountId)
    | Accept(device: AccountId)
    | Reject(device: AccountId)
    | Done(device: AccountId)

  datatype State = State(
    devices: map<AccountId, DeviceProfile>,
    orders: map<AccountId, Order>,
    events: seq<Event>)

  datatype Step = Step(ledger: Ledger, state: State, result: Outcome, sent: Option<Sent>)

  function Refused(l: Ledger, s: State, e: Error): Step {
    Step(l, s, Err(e), None)
  }

  /** What the runtime's OnReceived hook may answer: decline, or one of the two states the
      pallet asserts. */
  predicate HookAnswer(answer: Option<DeviceState>) {
    answer.Some? ==> answer.value == Busy || answer.value == Accepted
  }

  predicate IsReady(s: State, device: AccountId) {
    device in s.devices && s.devices[device].state == Ready
  }

  /** A message goes out only for a foreign order. */
  function Answer(self: ParaId, order: Order, msg: XcmpMessage): Option<Sent> {
    if order.paraid == self then None else Some(Sent(order.paraid, msg))
  }

  /** The checks before any money moves, in the order they are made. */
  function ReceiveRefusal(
    self: ParaId, l: Ledger, s: State, now: Moment, order: Order, device: AccountId, answer: Option<DeviceState>)
    : Option<Error>
  {
    if now >= order.until then Some(Overdue)
    else if device in s.orders then Some(IllegalState)
    else if device !in s.devices then Some(NoDevice)
    else if !IsReady(s, device) then Some(IllegalState)
    else if order.until < now + s.devices[device].wcd then Some(BadOrderDetails)
    else if answer.None? then Some(IllegalState)
    else if order.paraid == self && !CanReserve(l, order.client, order.fee) then Some(DeviceLowBail)
    else None
  }

  /** The device takes the order in the state the hook answered; Accepted is announced. */
  function Placed(
    self: ParaId, l: Ledger, s: State, order: Order, device: AccountId, state: DeviceState): Step
    requires device in s.devices
  {
    var placed := State(
      s.devices[device := s.devices[device].(state := state)],
      s.orders[device := order],
      s.events + [Event.NewOrder(device)]);
    if state == Accepted then
      Step(l, placed.(events := placed.events + [Accept(device)]), Ok,
        Answer(self, order, OrderAccept(order.client, device)))
    else Step(l, placed, Ok, None)
  }

  function ReceiveStep(
    self: ParaId, l: Ledger, s: State, now: Moment, order: Order, device: AccountId, answer: Option<DeviceState>)
    : Step
  {
    var refusal := ReceiveRefusal(self, l, s, now, order, device, answer);
    if refusal.Some? then Refused(l, s, refusal.value)
    else if order.paraid != self then Placed(self, l, s, order, device, answer.value)
    else
      var penalty := s.devices[device].penalty;
      if !CanReserve(l, device, penalty) then Refused(l, s, InsufficientBalance)
      else
        var bailed := Reserve(l, device, penalty);
        if !CanReserve(bailed, order.client, order.fee) then Refused(bailed, s, InsufficientBalance)
        else Placed(self, Reserve(bailed, order.client, order.fee), s, order, device, answer.value)
  }

  /** A local client's call: the order is given this chain as its source. */
  function OrderStep(
    self: ParaId, l: Ledger, s: State, now: Moment, who: AccountId, order: OrderBase, answer: Option<DeviceState>)
    : Step
  {
    ReceiveStep(self, l, s, now, order.Convert(who).(paraid := self), order.device, answer)
  }

  /** Shared ending of `cancel` and of a rejecting `accept`; there may be no order left. */
  function RejectStep(
    self: ParaId, l: Ledger, s: State, now: Moment, device: AccountId, state: DeviceState, onoff: bool): Step
    requires device in s.devices
  {
    var dev := s.devices[device];
    var s' := State(s.devices[device := dev.(state := state)], s.orders - {device}, s.events + [Reject(device)]);
    if device !in s.orders then Step(l, s', Ok, None)
    else
      var order := s.orders[device];
      if order.paraid != self then
        Step(l, s', Ok, Answer(self, order, OrderReject(order.client, device, onoff)))
      else
        var refunded := Unreserve(l, order.client, order.fee);
        Step(
          if now < order.until then Unreserve(refunded, device, dev.penalty)
          else RepatriateReserved(refunded, device, order.client, dev.penalty),
          s', Ok, None)
  }

  function CancelStep(self: ParaId, l: Ledger, s: State, now: Moment, who: AccountId, device: AccountId): Step {
    if device !in s.orders then Refused(l, s, NoOrder)
    else if now < s.orders[device].until || s.orders[device].client != who then Refused(l, s, Prohibited)
    else if device !in s.devices then Refused(l, s, NoDevice)
    else RejectStep(self, l, s, now, device, s.devices[device].state, false)
  }

  function AcceptStep(
    self: ParaId, l: Ledger, s: State, now: Moment, id: AccountId, reject: bool, onoff: bool): Step
  {
    if id !in s.devices then Refused(l, s, NoDevice)
    else
      var dev := s.devices[id];
      if reject then
        if dev.state != Busy && dev.state != Accepted then Refused(l, s, IllegalState)
        else RejectStep(self, l, s, now, id, OnOff(onoff), onoff)
      else if dev.state != Busy then Refused(l, s, IllegalState)
      else if id !in s.orders then Refused(l, s, NoOrder)
      else if now >= s.orders[id].until then Refused(l, s, Overdue)
      else
        Step(
          l,
          s.(devices := s.devices[id := dev.(state := Accepted)], events := s.events + [Accept(id)]),
          Ok,
          Answer(self, s.orders[id], OrderAccept(s.orders[id].client, id)))
  }

  function DoneStep(self: ParaId, l: Ledger, s: State, now: Moment, id: AccountId, onoff: bool): Step {
    if id !in s.devices then Refused(l, s, NoDevice)
    else if s.devices[id].state != Accepted then Refused(l, s, IllegalState)
    else if id !in s.orders then Refused(l, s, NoOrder)
    else
      var order, dev := s.orders[id], s.devices[id];
      var s' := State(
        s.devices[id := dev.(state := OnOff(onoff))], s.orders - {id}, s.events + [Done(id)]);
      if order.paraid != self then
        Step(l, s', Ok, Answer(self, order, OrderDone(order.client, id, onoff)))
      else
        var paid := RepatriateReserved(l, order.client, id, order.fee);
        Step(
          if now < order.until then Unreserve(paid, id, dev.penalty)
          else RepatriateReserved(paid, id, order.client, dev.penalty),
          s', Ok, None)
  }

  function RegisterStep(l: Ledger, s: State, id: AccountId, penalty: Balance, wcd: Moment, onoff: bool): Step {
    if id in s.orders then Refused(l, s, DeviceExists)
    else
      Step(
        l,
        s.(devices := s.devices[id := DeviceProfile(penalty, wcd, OnOff(onoff))],
           events := s.events + [NewDevice(id)]),
        Ok,
        None)
  }

  function SetStateStep(l: Ledger, s: State, id: AccountId, onoff: bool): Step {
    if id !in s.devices then Refused(l, s, NoDevice)
    else
      var dev := s.devices[id];
      if dev.state == Off || (!onoff && dev.state == Ready) then
        Step(l, s.(devices := s.devices[id := dev.(state := OnOff(onoff))]), Ok, None)
      else Refused(l, s, IllegalState)
  }

  /** An account died: only an idle profile goes. */
  function Killed(s: State, who: AccountId): State {
    if who in s.devices && s.devices[who].state == Off then s.(devices := s.devices - {who}) else s
  }

  /** A NewOrder from `sender`. */
  function HandleStep(
    self: ParaId, l: Ledger, s: State, now: Moment, sender: ParaId, msg: XcmpMessage, answer: Option<DeviceState>)
    : Step
    requires msg.NewOrder?
  {
    ReceiveStep(self, l, s, now, msg.order.Convert(msg.client).(paraid := sender), msg.order.device, answer)
  }

  /** An item at which the pallet's batch loop goes on. */
  predicate Handled(item: Item) {
    item.Decoded? && item.msg.NewOrder?
  }

  /** The NewOrders of a batch, handled one after the other; what they send is appended to `outbox`. */
  function HandleAll(
    self: ParaId, l: Ledger, s: State, outbox: seq<Sent>, now: Moment,
    batch: seq<Item>, answers: seq<Option<DeviceState>>)
    : (Ledger, State, seq<Sent>)
    requires |answers| == |batch| && forall item <- batch :: Handled(item)
  {
    if batch == [] then (l, s, outbox)
    else
      var n := |batch| - 1;
      assert Handled(batch[n]);
      var (l', s', out) := HandleAll(self, l, s, outbox, now, batch[..n], answers[..n]);
      var step := HandleStep(self, l', s', now, batch[n].sender, batch[n].msg, answers[n]);
      (step.ledger, step.state, Appended(out, step.sent))
  }
}

/** The service-side pallet as the source writes it: storage maps changed step by step. */
module XChangeServicePallet {
  import opened Common
  import opened Balances
  import opened Currencies
  import S = XChangeService

  class Pallet {
    const self: ParaId
    const currency: Currency
    var devices: map<AccountId, S.DeviceProfile>
    var orders: map<AccountId, Common.Order>
    var events: seq<S.Event>
    var outbox: seq<Sent>

    constructor (self: ParaId, currency: Currency)
      ensures this.self == self && this.currency == currency
      ensures State() == S.State(map[], map[], []) && outbox == []
    {
      this.self, this.currency := self, currency;
      devices, orders, events, outbox := map[], map[], [], [];
    }

    ghost function State(): S.State
      reads this
    {
      S.State(devices, orders, events)
    }

    /** The pallet and the ledger are as `step` says, and `step.sent` went to the router. */
    twostate predicate Took(step: S.Step)
      reads this, currency
    {
      currency.accounts == step.ledger && State() == step.state && outbox == Appended(old(outbox), step.sent)
    }

    method Order(who: AccountId, now: Moment, order: OrderBase, answer: Option<DeviceState>) returns (r: Outcome)
      requires S.HookAnswer(answer)
      modifies this, currency
      ensures var step := S.OrderStep(self, old(currency.accounts), old(State()), now, who, order, answer);
        Took(step) && r == step.result
    {
      var OrderBase(until, data, fee, device) := order;
      r := OrderReceived(Common.Order(until, data, fee, who, self), now, device, answer);
    }

    method Cancel(who: AccountId, now: Moment, device: AccountId) returns (r: Outcome)
      modifies this, currency
      ensures var step := S.CancelStep(self, old(currency.accounts), old(State()), now, who, device);
        Took(step) && r == step.result
    {
      if device !in orders {
        return Err(NoOrder);
      }
      var order := orders[device];
      if now < order.until || order.client != who {
        return Err(Prohibited);
      }
      if device !in devices {
        return Err(NoDevice);
      }
      // The device keeps its state.
      RejectOrder(Some(order), now, device, devices[device], false);
      return Ok;
    }

    method Accept(id: AccountId, now: Moment, reject: bool, onoff: bool) returns (r: Outcome)
      modifies this, currency
      ensures var step := S.AcceptStep(self, old(currency.accounts), old(State()), now, id, reject, onoff);
        Took(step) && r == step.result
    {
      var order := if id in orders then Some(orders[id]) else None;
      if id !in devices {
        return Err(NoDevice);
      }
      var dev := devices[id];
      if reject {
        if dev.state != Busy && dev.state != Accepted {
          return Err(IllegalState);
        }
        dev := dev.(state := if onoff then Ready else Off);
        RejectOrder(order, now, id, dev, onoff);
        return Ok;
      }
      if dev.state != Busy {
        return Err(IllegalState);
      }
      if order.None? {
        return Err(NoOrder);
      }
      if now >= order.value.until {
        return Err(Overdue);
      }
      AcceptOrder(order.value, id, dev);
      return Ok;
    }

    method Done(id: AccountId, now: Moment, onoff: bool) returns (r: Outcome)
      modifies this, currency
      ensures var step := S.DoneStep(self, old(currency.accounts), old(State()), now, id, onoff);
        Took(step) && r == step.result
    {
      if id !in devices {
        return Err(NoDevice);
      }
      var dev := devices[id];
      if dev.state != Accepted {
        return Err(IllegalState);
      }
      if id !in orders {
        return Err(NoOrder);
      }
      var order := orders[id];
      orders := orders - {id};
      OrderDone(order, now, id, dev, onoff);
      return Ok;
    }

    method Register(id: AccountId, penalty: Balance, wcd: Moment, onoff: bool) returns (r: Outcome)
      modifies this
      ensures var step := S.RegisterStep(currency.accounts, old(State()), id, penalty, wcd, onoff);
        Took(step) && r == step.result
    {
      if id in orders {
        return Err(DeviceExists);
      }
      devices := devices[id := S.DeviceProfile(penalty, wcd, if onoff then Ready else Off)];
      events := events + [S.NewDevice(id)];
      return Ok;
    }

    method SetState(id: AccountId, onoff: bool) returns (r: Outcome)
      modifies this
      ensures var step := S.SetStateStep(currency.accounts, old(State()), id, onoff);
        Took(step) && r == step.result
    {
      if id !in devices {
        return Err(NoDevice);
      }
      var dev := devices[id];
      match (onoff, dev.state) {
        case (false, Ready) => dev := dev.(state := Off);
        case (false, Off) => dev := dev.(state := Off);
        case (true, Off) => dev := dev.(state := Ready);
        case _ => return Err(IllegalState);
      }
      devices := devices[id := dev];
      return Ok;
    }

    method OrderReceived(order: Common.Order, now: Moment, device: AccountId, answer: Option<DeviceState>)
      returns (r: Outcome)
      requires S.HookAnswer(answer)
      modifies this, currency
      ensures var step := S.ReceiveStep(self, old(currency.accounts), old(State()), now, order, device, answer);
        Took(step) && r == step.result
    {
      if now >= order.until {
        return Err(Overdue);
      }
      if device in orders {
        return Err(IllegalState);
      }
      if device !in devices {
        return Err(NoDevice);
      }
      var dev := devices[device];
      if dev.state != Ready {
        return Err(IllegalState);
      }
      if order.until < now + dev.wcd {
        return Err(BadOrderDetails);
      }
      if answer.None? {
        return Err(IllegalState);
      }
      dev := dev.(state := answer.value);
      assert dev.state == Busy || dev.state == Accepted;
      if order.paraid == self {
        if !CanReserve(currency.accounts, order.client, order.fee) {
          return Err(DeviceLowBail);
        }
        r := currency.Reserve(device, dev.penalty);
        if r.Err? {
          return;
        }
        r := currency.Reserve(order.client, order.fee);
        if r.Err? {
          return;
        }
      }
      orders := orders[device := order];
      events := events + [S.NewOrder(device)];
      if dev.state == Accepted {
        AcceptOrder(order, device, dev);
      } else {
        devices := devices[device := dev];
      }
      return Ok;
    }

    method OrderDone(order: Common.Order, now: Moment, device: AccountId, dev: S.DeviceProfile, onoff: bool)
      modifies this, currency
      ensures devices == old(devices)[device := dev.(state := OnOff(onoff))]
      ensures orders == old(orders) && events == old(events) + [S.Done(device)]
      ensures outbox ==
        Appended(old(outbox), S.Answer(self, order, XcmpMessage.OrderDone(order.client, device, onoff)))
      ensures currency.accounts ==
        if order.paraid != self then old(currency.accounts)
        else
          var paid := Balances.RepatriateReserved(old(currency.accounts), order.client, device, order.fee);
          if now < order.until then Balances.Unreserve(paid, device, dev.penalty)
          else Balances.RepatriateReserved(paid, device, order.client, dev.penalty)
    {
      devices := devices[device := dev.(state := if onoff then Ready else Off)];
      if order.paraid == self {
        currency.RepatriateReserved(order.client, device, order.fee);
        if now < order.until {
          currency.Unreserve(device, dev.penalty);
        } else {
          currency.RepatriateReserved(device, order.client, dev.penalty);
        }
      } else {
        outbox := outbox + [Sent(order.paraid, XcmpMessage.OrderDone(order.client, device, onoff))];
      }
      events := events + [S.Done(device)];
    }

    method AcceptOrder(order: Common.Order, device: AccountId, dev: S.DeviceProfile)
      modifies this
      ensures devices == old(devices)[device := dev.(state := Accepted)]
      ensures orders == old(orders) && events == old(events) + [S.Accept(device)]
      ensures outbox == Appended(old(outbox), S.Answer(self, order, OrderAccept(order.client, device)))
    {
      devices := devices[device := dev.(state := Accepted)];
      if order.paraid != self {
        outbox := outbox + [Sent(order.paraid, OrderAccept(order.client, device))];
      }
      events := events + [S.Accept(device)];
    }

    method RejectOrder(
      order: Option<Common.Order>, now: Moment, device: AccountId, dev: S.DeviceProfile, onoff: bool)
      requires order == if device in orders then Some(orders[device]) else None
      requires device in devices && devices[device].(state := dev.state) == dev
      modifies this, currency
      ensures Took(S.RejectStep(self, old(currency.accounts), old(State()), now, device, dev.state, onoff))
    {
      if order.Some? {
        var order := order.value;
        if order.paraid == self {
          currency.Unreserve(order.client, order.fee);
          if now < order.until {
            currency.Unreserve(device, dev.penalty);
          } else {
            currency.RepatriateReserved(device, order.client, dev.penalty);
          }
        } else {
          outbox := outbox + [Sent(order.paraid, OrderReject(order.client, device, onoff))];
        }
      }
      orders := orders - {device};
      devices := devices[device := dev];
      events := events + [S.Reject(device)];
    }

    method OnKilledAccount(who: AccountId)
      modifies this
      ensures Took(S.Step(currency.accounts, S.Killed(old(State()), who), Ok, None))
    {
      if who in devices {
        var dev := devices[who];
        if dev.state == Off {
          devices := devices - {who};
        }
      }
    }

    /** The whole batch is handled up to the first item that does not decode or is not a
        NewOrder; the answer tells the caller whether there was one. */
    method HandleXcmpMessages(now: Moment, batch: seq<Item>, answers: seq<Option<DeviceState>>, maxWeight: nat)
      returns (weight: nat, ghost n: nat)
      requires |answers| == |batch| && forall answer <- answers :: S.HookAnswer(answer)
      modifies this, currency
      ensures n <= |batch| && forall item <- batch[..n] :: S.Handled(item) && item.Decoded? && item.msg.NewOrder?
      ensures n < |batch| ==> batch[n].Undecodable? || !batch[n].msg.NewOrder?
      ensures (currency.accounts, State(), outbox) ==
        S.HandleAll(self, old(currency.accounts), old(State()), old(outbox), now, batch[..n], answers[..n])
      ensures weight == if n == |batch| then maxWeight else 0
    {
      n := 0;
      for i := 0 to |batch|
        invariant n == i && forall item <- batch[..i] :: S.Handled(item)
        invariant (currency.accounts, State(), outbox) ==
          S.HandleAll(self, old(currency.accounts), old(State()), old(outbox), now, batch[..i], answers[..i])
      {
        assert batch[..i + 1][..i] == batch[..i] && answers[..i + 1][..i] == answers[..i];
        match batch[i] {
          case Undecodable =>
            return 0, n;
          case Decoded(sender, NewOrder(client, order)) =>
            var OrderBase(until, data, fee, device) := order;
            var _ := OrderReceived(Common.Order(until, data, fee, client, sender), now, device, answers[i]);
          case _ =>
            return 0, n;
        }
        n := n + 1;
      }
      return maxWeight, n;
    }
  }
}
