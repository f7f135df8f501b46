/** The client side, pallets/xchange/src/lib.rs, as functions from one state to the next. */
module XChange {
  import opened Common
  import opened Balances

  datatype DeviceProfile = DeviceProfile(penalty: Balance, wcd: Moment, para: ParaId, state: DeviceState)

  datatype Event =
    | NewDevice(device: AccountId)
    | NewOrder(client: AccountId, device: AccountId)
    | Accept(client: AccountId, device: AccountId)
    | Reject(client: AccountId, device: AccountId)
    | Done(client: AccountId, device: AccountId)

  datatype State = State(
    devices: map<AccountId, DeviceProfile>,
    orders: map<AccountId, Order>,
    events: seq<Event>)

  /** What a call leaves behind: the ledger, the pallet, its answer and what it sent. */
  datatype Step = Step(ledger: Ledger, state: State, result: Outcome, sent: Option<Sent>)

  function Refused(l: Ledger, x: State, e: Error): Step {
    Step(l, x, Err(e), None)
  }

  predicate IsReady(x: State, device: AccountId) {
    device in x.devices && x.devices[device].state == Ready
  }

  /** The checks before any money moves, in the order they are made. */
  function OrderRefusal(l: Ledger, x: State, now: Moment, who: AccountId, order: OrderBase): Option<Error> {
    if now >= order.until then Some(Overdue)
    else if order.device in x.orders then Some(IllegalState)
    else if order.device !in x.devices then Some(NoDevice)
    else if !IsReady(x, order.device) then Some(IllegalState)
    else if order.until < now + x.devices[order.device].wcd then Some(BadOrderDetails)
    else if !CanReserve(l, who, order.fee) then Some(DeviceLowBail)
    else None
  }

  function OrderStep(l: Ledger, x: State, now: Moment, who: AccountId, order: OrderBase): Step {
    var refusal := OrderRefusal(l, x, now, who, order);
    if refusal.Some? then Refused(l, x, refusal.value)
    else
      var dev := x.devices[order.device];
      if !CanReserve(l, order.device, dev.penalty) then Refused(l, x, InsufficientBalance)
      else
        var bailed := Reserve(l, order.device, dev.penalty);
        if !CanReserve(bailed, who, order.fee) then Refused(bailed, x, InsufficientBalance)
        else
          Step(
            Reserve(bailed, who, order.fee),
            State(
              x.devices[order.device := dev.(state := Busy)],
              x.orders[order.device := order.Convert(who)],
              x.events + [Event.NewOrder(who, order.device)]),
            Ok,
            Some(Sent(dev.para, XcmpMessage.NewOrder(who, order))))
  }

  /** Shared ending of `cancel` and an incoming reject; `state` is the device's next state. */
  function RejectStep(
    l: Ledger, x: State, now: Moment, who: AccountId, device: AccountId, state: DeviceState): Step
    requires device in x.orders && device in x.devices
  {
    var order, dev := x.orders[device], x.devices[device];
    var refunded := Unreserve(l, who, order.fee);
    Step(
      if now < order.until then Unreserve(refunded, device, dev.penalty)
      else RepatriateReserved(refunded, device, order.client, dev.penalty),
      State(x.devices[device := dev.(state := state)], x.orders - {device}, x.events + [Reject(who, device)]),
      Ok,
      None)
  }

  function CancelStep(l: Ledger, x: State, now: Moment, who: AccountId, device: AccountId): Step {
    if device !in x.orders then Refused(l, x, NoOrder)
    else if now < x.orders[device].until || x.orders[device].client != who then Refused(l, x, Prohibited)
    else if device !in x.devices then Refused(l, x, NoDevice)
    else RejectStep(l, x, now, who, device, x.devices[device].state)
  }

  function OnRejectStep(
    l: Ledger, x: State, now: Moment, who: AccountId, device: AccountId, onoff: bool): Step
  {
    if device !in x.orders then Refused(l, x, NoOrder)
    else if device !in x.devices then Refused(l, x, NoDevice)
    else RejectStep(l, x, now, who, device, OnOff(onoff))
  }

  function OnDoneStep(
    l: Ledger, x: State, now: Moment, who: AccountId, device: AccountId, onoff: bool): Step
  {
    if device !in x.orders then Refused(l, x, NoOrder)
    else if device !in x.devices then Refused(l, x, NoDevice)
    else
      var order, dev := x.orders[device], x.devices[device];
      var paid := RepatriateReserved(l, who, device, order.fee);
      Step(
        if now < order.until then Unreserve(paid, device, dev.penalty)
        else RepatriateReserved(paid, device, who, dev.penalty),
        State(
          x.devices[device := dev.(state := OnOff(onoff))],
          x.orders - {device},
          x.events + [Done(who, device)]),
        Ok,
        None)
  }

  function OnAcceptStep(l: Ledger, x: State, who: AccountId, device: AccountId): Step {
    Step(l, x.(events := x.events + [Accept(who, device)]), Ok, None)
  }

  function RegisterStep(
    l: Ledger, x: State, id: AccountId, para: ParaId, penalty: Balance, wcd: Moment, onoff: bool): Step
  {
    if id in x.orders then Refused(l, x, DeviceExists)
    else
      Step(
        l,
        x.(devices := x.devices[id := DeviceProfile(penalty, wcd, para, OnOff(onoff))],
           events := x.events + [NewDevice(id)]),
        Ok,
        None)
  }

  /** An account died: an idle profile goes, any other is parked in Timewait. */
  function Killed(x: State, who: AccountId): State {
    if who !in x.devices then x
    else if x.devices[who].state == Off then x.(devices := x.devices - {who})
    else x.(devices := x.devices[who := x.devices[who].(state := Timewait)])
  }

  /** One decoded message; a NewOrder is not for this pallet and is skipped. */
  function HandleStep(l: Ledger, x: State, now: Moment, msg: XcmpMessage): Step {
    match msg
    case OrderAccept(client, device) => OnAcceptStep(l, x, client, device)
    case OrderReject(client, device, onoff) => OnRejectStep(l, x, now, client, device, onoff)
    case OrderDone(client, device, onoff) => OnDoneStep(l, x, now, client, device, onoff)
    case NewOrder(_, _) => Step(l, x, Ok, None)
  }

  /** The messages of a batch, handled one after the other. */
  function HandleAll(l: Ledger, x: State, now: Moment, batch: seq<Item>): (Ledger, State)
    requires forall item <- batch :: item.Decoded?
  {
    if batch == [] then (l, x)
    else
      var (l', x') := HandleAll(l, x, now, batch[..|batch| - 1]);
      var step := HandleStep(l', x', now, batch[|batch| - 1].msg);
      (step.ledger, step.state)
  }
}

/** The client-side pallet as the source writes it: storage maps changed step by step. */
module XChangePallet {
  import opened Common
  import opened Balances
  import opened Currencies
  import X = XChange

  class Pallet {
    const currency: Currency
    var devices: map<AccountId, X.DeviceProfile>
    var orders: map<AccountId, Common.Order>
    var events: seq<X.Event>
    var outbox: seq<Sent>

    constructor (currency: Currency)
      ensures this.currency == currency
      ensures State() == X.State(map[], map[], []) && outbox == []
    {
      this.currency := currency;
      devices, orders, events, outbox := map[], map[], [], [];
    }

    ghost function State(): X.State
      reads this
    {
      X.State(devices, orders, events)
    }

    /** The pallet and the ledger are as `step` says, and `step.sent` went to the router. */
    twostate predicate Took(step: X.Step)
      reads this, currency
    {
      currency.accounts == step.ledger && State() == step.state && outbox == Appended(old(outbox), step.sent)
    }

    method Order(who: AccountId, now: Moment, order: OrderBase) returns (r: Outcome)
      modifies this, currency
      ensures var step := X.OrderStep(old(currency.accounts), old(State()), now, who, order);
        Took(step) && r == step.result
    {
      if now >= order.until {
        return Err(Overdue);
      }
      if order.device in orders {
        return Err(IllegalState);
      }
      if order.device !in devices {
        return Err(NoDevice);
      }
      var dev := devices[order.device];
      if dev.state != Ready {
        return Err(IllegalState);
      }
      if order.until < now + dev.wcd {
        return Err(BadOrderDetails);
      }
      if !CanReserve(currency.accounts, who, order.fee) {
        return Err(DeviceLowBail);
      }
      r := currency.Reserve(order.device, dev.penalty);
      if r.Err? {
        return;
      }
      r := currency.Reserve(who, order.fee);
      if r.Err? {
        return;
      }
      var device := order.device;
      var stored := order.Convert(who);
      orders := orders[device := stored];
      outbox := outbox + [Sent(dev.para, NewOrder(who, stored.Convert(device)))];
      dev := dev.(state := Busy);
      devices := devices[device := dev];
      events := events + [X.NewOrder(who, device)];
      return Ok;
    }

    method Cancel(who: AccountId, now: Moment, device: AccountId) returns (r: Outcome)
      modifies this, currency
      ensures var step := X.CancelStep(old(currency.accounts), old(State()), now, who, device);
        Took(step) && r == step.result
    {
      if device !in orders {
        return Err(NoOrder);
      }
      var order := orders[device];
      if now < order.until || order.client != who {
        return Err(Prohibited);
      }
      if device !in devices {
        return Err(NoDevice);
      }
      // The device keeps its state.
      RejectOrder(who, order, now, device, devices[device]);
      return Ok;
    }

    method Register(id: AccountId, para: ParaId, penalty: Balance, wcd: Moment, onoff: bool) returns (r: Outcome)
      modifies this
      ensures var step := X.RegisterStep(currency.accounts, old(State()), id, para, penalty, wcd, onoff);
        Took(step) && r == step.result
    {
      if id in orders {
        return Err(DeviceExists);
      }
      devices := devices[id := X.DeviceProfile(penalty, wcd, para, if onoff then Ready else Off)];
      events := events + [X.NewDevice(id)];
      return Ok;
    }

    method OnAccept(who: AccountId, device: AccountId)
      modifies this
      ensures Took(X.OnAcceptStep(currency.accounts, old(State()), who, device))
    {
      events := events + [X.Accept(who, device)];
    }

    method OnReject(who: AccountId, now: Moment, device: AccountId, onoff: bool) returns (r: Outcome)
      modifies this, currency
      ensures var step := X.OnRejectStep(old(currency.accounts), old(State()), now, who, device, onoff);
        Took(step) && r == step.result
    {
      if device !in orders {
        return Err(NoOrder);
      }
      var order := orders[device];
      if device !in devices {
        return Err(NoDevice);
      }
      var dev := devices[device];
      dev := dev.(state := if !onoff then Off else Ready);
      RejectOrder(who, order, now, device, dev);
      return Ok;
    }

    method OnDone(who: AccountId, now: Moment, device: AccountId, onoff: bool) returns (r: Outcome)
      modifies this, currency
      ensures var step := X.OnDoneStep(old(currency.accounts), old(State()), now, who, device, onoff);
        Took(step) && r == step.result
    {
      if device !in orders {
        return Err(NoOrder);
      }
      var order := orders[device];
      if device !in devices {
        return Err(NoDevice);
      }
      var dev := devices[device];
      currency.RepatriateReserved(who, device, order.fee);
      if now < order.until {
        currency.Unreserve(device, dev.penalty);
      } else {
        currency.RepatriateReserved(device, who, dev.penalty);
      }
      orders := orders - {device};
      dev := dev.(state := if !onoff then Off else Ready);
      devices := devices[device := dev];
      events := events + [X.Done(who, device)];
      return Ok;
    }

    method RejectOrder(
      who: AccountId, order: Common.Order, now: Moment, device: AccountId, dev: X.DeviceProfile)
      requires device in orders && orders[device] == order
      requires device in devices && devices[device].(state := dev.state) == dev
      modifies this, currency
      ensures Took(X.RejectStep(old(currency.accounts), old(State()), now, who, device, dev.state))
    {
      currency.Unreserve(who, order.fee);
      if now < order.until {
        currency.Unreserve(device, dev.penalty);
      } else {
        currency.RepatriateReserved(device, order.client, dev.penalty);
      }
      orders := orders - {device};
      devices := devices[device := dev];
      events := events + [X.Reject(who, device)];
    }

    method OnKilledAccount(who: AccountId)
      modifies this
      ensures Took(X.Step(currency.accounts, X.Killed(old(State()), who), Ok, None))
    {
      if who in devices {
        var dev := devices[who];
        if dev.state == Off {
          devices := devices - {who};
        } else {
          dev := dev.(state := Timewait);
          devices := devices[who := dev];
        }
      }
    }

    /** The whole batch is handled up to the first item that does not decode; the answer
        tells the caller whether there was one. */
    method HandleXcmpMessages(now: Moment, batch: seq<Item>, maxWeight: nat) returns (weight: nat, ghost n: nat)
      modifies this, currency
      ensures n <= |batch| && (forall item <- batch[..n] :: item.Decoded?)
      ensures n < |batch| ==> batch[n].Undecodable?
      ensures (currency.accounts, State()) == X.HandleAll(old(currency.accounts), old(State()), now, batch[..n])
      ensures weight == if n == |batch| then maxWeight else 0
      ensures outbox == old(outbox)
    {
      n := 0;
      for i := 0 to |batch|
        invariant n == i && forall item <- batch[..i] :: item.Decoded?
        invariant (currency.accounts, State()) == X.HandleAll(old(currency.accounts), old(State()), now, batch[..i])
        invariant outbox == old(outbox)
      {
        assert batch[..i + 1][..i] == batch[..i];
        match batch[i] {
          case Undecodable =>
            return 0, n;
          case Decoded(_, OrderAccept(client, device)) =>
            OnAccept(client, device);
          case Decoded(_, OrderReject(client, device, onoff)) =>
            var _ := OnReject(client, now, device, onoff);
          case Decoded(_, OrderDone(client, device, onoff)) =>
            var _ := OnDone(client, now, device, onoff);
          case Decoded(_, NewOrder(_, _)) =>
        }
        n := n + 1;
      }
      return maxWeight, n;
    }
  }
}
