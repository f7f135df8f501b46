/** The same for the service pallet: what each call answers, and everything it does. */
module ServiceCalls {
  import opened Common
  import opened Balances
  import opened Chains
  import S = XChangeService

  predicate StaysService(c: Chain, effect: Effect) {
    && effect.chain.now == c.now && effect.chain.x == c.x
    && (effect.result.Err? ==> effect.chain.s == c.s && effect.sent == None)
  }

  predicate Becomes(
    effect: Effect, devices: map<AccountId, S.DeviceProfile>, orders: map<AccountId, Order>, events: seq<S.Event>,
    sent: Option<Sent>)
  {
    && effect.chain.s.devices == devices && effect.chain.s.orders == orders && effect.chain.s.events == events
    && effect.sent == sent
  }

  /** A local client's call is a delivery of his order from the own chain. */
  lemma OrderIsReceipt(p: ParaId, c: Chain, who: AccountId, order: OrderBase, answer: Option<DeviceState>)
    ensures Dispatch(p, c, SOrder(who, order, answer)) == Dispatch(p, c, SHandle(p, NewOrder(who, order), answer))
  {
  }

  /** The checks of an order, in the order in which they answer; only an order from the own chain
      has to be paid for here. */
  lemma ReceiptAnswers(
    p: ParaId, c: Chain, from: ParaId, who: AccountId, order: OrderBase, answer: Option<DeviceState>)
    ensures var r, d, l := Dispatch(p, c, SHandle(from, NewOrder(who, order), answer)).result, order.device, c.ledger;
      var inTime := c.now < order.until;
      var free := inTime && d !in c.s.orders && d in c.s.devices && c.s.devices[d].state == Ready;
      var possible := free && c.now + c.s.devices[d].wcd <= order.until;
      var taken := possible && answer.Some?;
      var payable := taken && (from == p ==> order.fee <= Free(l, who));
      var covered := payable
        && (from == p ==> c.s.devices[d].penalty + (if who == d then order.fee else 0) <= Free(l, d));
      && (r == Err(Overdue) <==> order.until <= c.now)
      && (r == Err(NoDevice) <==> inTime && d !in c.s.orders && d !in c.s.devices)
      && (r == Err(IllegalState) <==>
        || (inTime && (d in c.s.orders || (d in c.s.devices && c.s.devices[d].state != Ready)))
        || (possible && answer.None?))
      && (r == Err(BadOrderDetails) <==> free && order.until < c.now + c.s.devices[d].wcd)
      && (r == Err(DeviceLowBail) <==> taken && !payable)
      && (r == Err(InsufficientBalance) <==> payable && !covered)
      && (r == Ok <==> covered)
  {
  }

  /** A taken order is stored under its device as it came, with the chain it came from; the device
      is in the state its hook answered, and a foreign client is told if that is Accepted; an
      order from the own chain sets aside the fee and the penalty. */
  lemma ReceiptDoes(
    p: ParaId, c: Chain, from: ParaId, who: AccountId, order: OrderBase, answer: Option<DeviceState>)
    ensures var effect, d := Dispatch(p, c, SHandle(from, NewOrder(who, order), answer)), order.device;
      && StaysService(c, effect)
      && (effect.result == Ok ==>
        && d in c.s.devices && answer.Some?
        && var dev, accepted, l, l' := c.s.devices[d], answer.value == Accepted, c.ledger, effect.chain.ledger;
        && Becomes(effect,
          c.s.devices[d := S.DeviceProfile(dev.penalty, dev.wcd, answer.value)],
          c.s.orders[d := Order(order.until, order.data, order.fee, who, from)],
          c.s.events + [S.NewOrder(d)] + (if accepted then [S.Accept(d)] else []),
          if accepted && from != p then Some(Sent(from, OrderAccept(who, d))) else None)
        && (from != p ==> l' == l)
        && (from == p ==> forall a ::
          Free(l', a) == Free(l, a) - (if a == who then order.fee else 0) - (if a == d then dev.penalty else 0))
        && (from == p ==> forall a ::
          Reserved(l', a) ==
            Reserved(l, a) + (if a == who then order.fee else 0) + (if a == d then dev.penalty else 0)))
  {
  }

  /** A refused order moves no money, except that a local self-order that cannot pay both amounts
      leaves the penalty reserved. */
  lemma ReceiptRefusalMoves(
    p: ParaId, c: Chain, from: ParaId, who: AccountId, order: OrderBase, answer: Option<DeviceState>)
    ensures var effect, d := Dispatch(p, c, SHandle(from, NewOrder(who, order), answer)), order.device;
      var l, l' := c.ledger, effect.chain.ledger;
      effect.result.Err? ==>
        if effect.result == Err(InsufficientBalance) && d in c.s.devices && c.s.devices[d].penalty <= Free(l, d) then
          && who == d && from == p
          && (forall a :: Free(l', a) == Free(l, a) - if a == d then c.s.devices[d].penalty else 0)
          && (forall a :: Reserved(l', a) == Reserved(l, a) + if a == d then c.s.devices[d].penalty else 0)
        else l' == l
  {
  }

  /** Any other message that strays here leaves nothing. */
  lemma StrayMessageDoes(p: ParaId, c: Chain, from: ParaId, msg: XcmpMessage, answer: Option<DeviceState>)
    requires !msg.NewOrder?
    ensures Dispatch(p, c, SHandle(from, msg, answer)) == Effect(c, Ok, None)
  {
  }

  /** The end of the order of `d`, if it has one: an order of the own chain moves the money, as far
      as the reserves go, and any other is answered with `reply`. */
  ghost predicate Settles(
    p: ParaId, c: Chain, effect: Effect, d: AccountId, paid: bool, reply: XcmpMessage)
    requires d in c.s.devices
  {
    if d in c.s.orders && c.s.orders[d].paraid == p then
      var order, penalty := c.s.orders[d], c.s.devices[d].penalty;
      && effect.sent == None
      && Draws(c.ledger, order.client, if paid then d else order.client, order.fee,
        d, if c.now < order.until then d else order.client, penalty, effect.chain.ledger)
    else
      && effect.chain.ledger == c.ledger
      && effect.sent == if d in c.s.orders then Some(Sent(c.s.orders[d].paraid, reply)) else None
  }

  lemma CancelAnswers(p: ParaId, c: Chain, who: AccountId, d: AccountId)
    ensures var r, s := Dispatch(p, c, SCancel(who, d)).result, c.s;
      var due := d in s.orders && s.orders[d].until <= c.now && s.orders[d].client == who;
      && (r == Err(NoOrder) <==> d !in s.orders)
      && (r == Err(Prohibited) <==> d in s.orders && (c.now < s.orders[d].until || s.orders[d].client != who))
      && (r == Err(NoDevice) <==> due && d !in s.devices)
      && (r == Ok <==> due && d in s.devices)
  {
  }

  /** A cancelled order is gone, its device as it was; its client is refunded, or told. */
  lemma CancelDoes(p: ParaId, c: Chain, who: AccountId, d: AccountId)
    ensures var effect := Dispatch(p, c, SCancel(who, d));
      && StaysService(c, effect)
      && if effect.result == Ok then
           && d in c.s.devices && Settles(p, c, effect, d, false, OrderReject(who, d, false))
           && Becomes(effect, c.s.devices, c.s.orders - {d}, c.s.events + [S.Reject(d)], effect.sent)
         else effect.chain.ledger == c.ledger
  {
    hide Unreserve, RepatriateReserved, Draws;
    if d in c.s.orders && d in c.s.devices {
      RefundDraws(c.ledger, who, c.s.orders[d].fee, d, who, c.s.devices[d].penalty);
      assert c.s.devices[d := c.s.devices[d].(state := c.s.devices[d].state)] == c.s.devices;
    }
  }

  lemma AcceptAnswers(p: ParaId, c: Chain, d: AccountId, onoff: bool)
    ensures var r, s := Dispatch(p, c, SAccept(d, false, onoff)).result, c.s;
      var busy := d in s.devices && s.devices[d].state == Busy;
      && (r == Err(NoDevice) <==> d !in s.devices)
      && (r == Err(IllegalState) <==> d in s.devices && s.devices[d].state != Busy)
      && (r == Err(NoOrder) <==> busy && d !in s.orders)
      && (r == Err(Overdue) <==> busy && d in s.orders && s.orders[d].until <= c.now)
      && (r == Ok <==> busy && d in s.orders && c.now < s.orders[d].until)
  {
  }

  /** An accepted order stays as it is; its device works on it, and a foreign client is told. */
  lemma AcceptDoes(p: ParaId, c: Chain, d: AccountId, onoff: bool)
    ensures var effect := Dispatch(p, c, SAccept(d, false, onoff));
      && StaysService(c, effect) && effect.chain.ledger == c.ledger
      && (effect.result == Ok ==>
        && d in c.s.orders && d in c.s.devices
        && var order, dev := c.s.orders[d], c.s.devices[d];
        Becomes(effect,
          c.s.devices[d := S.DeviceProfile(dev.penalty, dev.wcd, Accepted)], c.s.orders, c.s.events + [S.Accept(d)],
          if order.paraid == p then None else Some(Sent(order.paraid, OrderAccept(order.client, d)))))
  {
  }

  lemma RejectAnswers(p: ParaId, c: Chain, d: AccountId, onoff: bool)
    ensures var r, s := Dispatch(p, c, SAccept(d, true, onoff)).result, c.s;
      var engaged := d in s.devices && (s.devices[d].state == Busy || s.devices[d].state == Accepted);
      && (r == Err(NoDevice) <==> d !in s.devices)
      && (r == Err(IllegalState) <==> d in s.devices && !engaged)
      && (r == Ok <==> engaged)
  {
  }

  /** A rejected order is gone, if there was one; its client is refunded, or told; the device is
      as it asks, and the rejection is announced in any case. */
  lemma RejectDoes(p: ParaId, c: Chain, d: AccountId, onoff: bool)
    ensures var effect := Dispatch(p, c, SAccept(d, true, onoff));
      && StaysService(c, effect)
      && if effect.result == Ok then
           && d in c.s.devices
           && var dev, client := c.s.devices[d], if d in c.s.orders then c.s.orders[d].client else 0;
           && Settles(p, c, effect, d, false, OrderReject(client, d, onoff))
           && Becomes(effect,
             c.s.devices[d := S.DeviceProfile(dev.penalty, dev.wcd, if onoff then Ready else Off)],
             c.s.orders - {d}, c.s.events + [S.Reject(d)], effect.sent)
         else effect.chain.ledger == c.ledger
  {
    hide Unreserve, RepatriateReserved, Draws;
    if d in c.s.orders && d in c.s.devices {
      var order := c.s.orders[d];
      RefundDraws(c.ledger, order.client, order.fee, d, order.client, c.s.devices[d].penalty);
    }
  }

  lemma DoneAnswers(p: ParaId, c: Chain, d: AccountId, onoff: bool)
    ensures var r, s := Dispatch(p, c, SDone(d, onoff)).result, c.s;
      var working := d in s.devices && s.devices[d].state == Accepted;
      && (r == Err(NoDevice) <==> d !in s.devices)
      && (r == Err(IllegalState) <==> d in s.devices && s.devices[d].state != Accepted)
      && (r == Err(NoOrder) <==> working && d !in s.orders)
      && (r == Ok <==> working && d in s.orders)
  {
  }

  /** A finished order is gone, paid for here or reported to its chain; the device is as it asks. */
  lemma DoneDoes(p: ParaId, c: Chain, d: AccountId, onoff: bool)
    ensures var effect := Dispatch(p, c, SDone(d, onoff));
      && StaysService(c, effect)
      && if effect.result == Ok then
           && d in c.s.devices && d in c.s.orders
           && var dev := c.s.devices[d];
           && Settles(p, c, effect, d, true, OrderDone(c.s.orders[d].client, d, onoff))
           && Becomes(effect,
             c.s.devices[d := S.DeviceProfile(dev.penalty, dev.wcd, if onoff then Ready else Off)],
             c.s.orders - {d}, c.s.events + [S.Done(d)], effect.sent)
         else effect.chain.ledger == c.ledger
  {
    hide Unreserve, RepatriateReserved, Draws;
    if d in c.s.orders && d in c.s.devices {
      var order := c.s.orders[d];
      PaymentDraws(c.ledger, order.client, order.fee, d, order.client, c.s.devices[d].penalty);
    }
  }

  /** A registration is refused only while the device has an order; otherwise it makes the
      profile what it asks for, whatever it was. */
  lemma RegisterDoes(p: ParaId, c: Chain, id: AccountId, penalty: Balance, wcd: Moment, onoff: bool)
    ensures var effect := Dispatch(p, c, SRegister(id, penalty, wcd, onoff));
      && StaysService(c, effect) && effect.chain.ledger == c.ledger
      && (effect.result == Err(DeviceExists) <==> id in c.s.orders)
      && (effect.result == Ok <==> id !in c.s.orders)
      && (effect.result == Ok ==>
        Becomes(effect,
          c.s.devices[id := S.DeviceProfile(penalty, wcd, if onoff then Ready else Off)],
          c.s.orders, c.s.events + [S.NewDevice(id)], None))
  {
  }

  /** A device switches itself on or off exactly when it is off, or ready and to be off; nothing
      but its state changes, and nothing is announced. */
  lemma SetStateDoes(p: ParaId, c: Chain, id: AccountId, onoff: bool)
    ensures var effect := Dispatch(p, c, SSetState(id, onoff));
      var idle := id in c.s.devices
        && (c.s.devices[id].state == Off || (c.s.devices[id].state == Ready && !onoff));
      && StaysService(c, effect) && effect.chain.ledger == c.ledger
      && (effect.result == Err(NoDevice) <==> id !in c.s.devices)
      && (effect.result == Err(IllegalState) <==> id in c.s.devices && !idle)
      && (effect.result == Ok <==> idle)
      && (effect.result == Ok ==>
        var dev := c.s.devices[id];
        Becomes(effect,
          c.s.devices[id := S.DeviceProfile(dev.penalty, dev.wcd, if onoff then Ready else Off)],
          c.s.orders, c.s.events, None))
  {
  }

  /** A dead account's profile goes if it is off; no other changes. */
  lemma KilledDoes(p: ParaId, c: Chain, who: AccountId)
    ensures var effect, devices := Dispatch(p, c, SKilled(who)), c.s.devices;
      && StaysService(c, effect) && effect.chain.ledger == c.ledger && effect.result == Ok
      && effect.chain.s.orders == c.s.orders && effect.chain.s.events == c.s.events && effect.sent == None
      && (who in effect.chain.s.devices <==> who in devices && devices[who].state != Off)
      && (forall d :: d in effect.chain.s.devices ==> d in devices && effect.chain.s.devices[d] == devices[d])
      && (forall d :: d != who && d in devices ==> d in effect.chain.s.devices)
  {
  }
}
