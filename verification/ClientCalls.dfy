/** What each call of the client pallet answers, and what it does, in plain terms: which check
    answers when several fail, every account's money, every device, order, event and message. */
module ClientCalls {
  import opened Common
  import opened Balances
  import opened Chains
  import X = XChange

  /** The call touches neither the clock nor the service pallet; a refused one sends nothing and
      leaves the client pallet as it was. */
  predicate StaysClient(c: Chain, effect: Effect) {
    && effect.chain.now == c.now && effect.chain.s == c.s
    && (effect.result.Err? ==> effect.chain.x == c.x && effect.sent == None)
  }

  /** Nothing but the ledger changes beyond that, when the call succeeds. */
  predicate Becomes(
    effect: Effect, devices: map<AccountId, X.DeviceProfile>, orders: map<AccountId, Order>, events: seq<X.Event>,
    sent: Option<Sent>)
  {
    && effect.chain.x.devices == devices && effect.chain.x.orders == orders && effect.chain.x.events == events
    && effect.sent == sent
  }

  /** The checks of an order, in the order in which they answer. */
  lemma OrderAnswers(p: ParaId, c: Chain, who: AccountId, order: OrderBase)
    ensures var r, d, l := Dispatch(p, c, XOrder(who, order)).result, order.device, c.ledger;
      var inTime := c.now < order.until;
      var free := inTime && d !in c.x.orders && d in c.x.devices && c.x.devices[d].state == Ready;
      var possible := free && c.now + c.x.devices[d].wcd <= order.until;
      var payable := possible && order.fee <= Free(l, who);
      var covered := payable && c.x.devices[d].penalty + (if who == d then order.fee else 0) <= Free(l, d);
      && (r == Err(Overdue) <==> order.until <= c.now)
      && (r == Err(NoDevice) <==> inTime && d !in c.x.orders && d !in c.x.devices)
      && (r == Err(IllegalState) <==>
        inTime && (d in c.x.orders || (d in c.x.devices && c.x.devices[d].state != Ready)))
      && (r == Err(BadOrderDetails) <==> free && order.until < c.now + c.x.devices[d].wcd)
      && (r == Err(DeviceLowBail) <==> possible && Free(l, who) < order.fee)
      && (r == Err(InsufficientBalance) <==> payable && !covered)
      && (r == Ok <==> covered)
  {
  }

  /** A placed order sets aside its client's fee and its device's penalty, is stored under its
      device, which becomes busy, and goes to the device's chain as its client wrote it. */
  lemma OrderDoes(p: ParaId, c: Chain, who: AccountId, order: OrderBase)
    ensures var effect, d := Dispatch(p, c, XOrder(who, order)), order.device;
      && StaysClient(c, effect)
      && (effect.result == Ok ==>
        && d in c.x.devices
        && var dev, l, l' := c.x.devices[d], c.ledger, effect.chain.ledger;
        && Becomes(effect,
          c.x.devices[d := X.DeviceProfile(dev.penalty, dev.wcd, dev.para, Busy)],
          c.x.orders[d := Order(order.until, order.data, order.fee, who, 0)],
          c.x.events + [X.NewOrder(who, d)],
          Some(Sent(dev.para, NewOrder(who, order))))
        && (forall a ::
          Free(l', a) == Free(l, a) - (if a == who then order.fee else 0) - (if a == d then dev.penalty else 0))
        && (forall a ::
          Reserved(l', a) ==
            Reserved(l, a) + (if a == who then order.fee else 0) + (if a == d then dev.penalty else 0)))
  {
  }

  /** A refused order moves no money, except that one refused for a self-order that cannot pay
      both amounts leaves the penalty reserved. */
  lemma OrderRefusalMoves(p: ParaId, c: Chain, who: AccountId, order: OrderBase)
    ensures var effect, d, l := Dispatch(p, c, XOrder(who, order)), order.device, c.ledger;
      effect.result.Err? ==>
        if effect.result == Err(InsufficientBalance) && d in c.x.devices && c.x.devices[d].penalty <= Free(l, d) then
          && who == d
          && (forall a :: Free(effect.chain.ledger, a) == Free(l, a) - if a == d then c.x.devices[d].penalty else 0)
          && (forall a ::
            Reserved(effect.chain.ledger, a) == Reserved(l, a) + if a == d then c.x.devices[d].penalty else 0)
        else effect.chain.ledger == l
  {
  }

  lemma CancelAnswers(p: ParaId, c: Chain, who: AccountId, d: AccountId)
    ensures var r, x := Dispatch(p, c, XCancel(who, d)).result, c.x;
      var due := d in x.orders && x.orders[d].until <= c.now && x.orders[d].client == who;
      && (r == Err(NoOrder) <==> d !in x.orders)
      && (r == Err(Prohibited) <==> d in x.orders && (c.now < x.orders[d].until || x.orders[d].client != who))
      && (r == Err(NoDevice) <==> due && d !in x.devices)
      && (r == Ok <==> due && d in x.devices)
  {
  }

  /** A cancelled order is gone, its device as it was; the client has the fee back and gets the
      penalty. */
  lemma CancelDoes(p: ParaId, c: Chain, who: AccountId, d: AccountId)
    ensures var effect := Dispatch(p, c, XCancel(who, d));
      && StaysClient(c, effect)
      && if effect.result == Ok then
           && d in c.x.orders && d in c.x.devices
           && Becomes(effect, c.x.devices, c.x.orders - {d}, c.x.events + [X.Reject(who, d)], None)
           && Draws(c.ledger, who, who, c.x.orders[d].fee, d, who, c.x.devices[d].penalty, effect.chain.ledger)
         else effect.chain.ledger == c.ledger
  {
    hide Unreserve, RepatriateReserved, Draws;
    if d in c.x.orders && d in c.x.devices {
      var order, penalty := c.x.orders[d], c.x.devices[d].penalty;
      RefundDraws(c.ledger, who, order.fee, d, who, penalty);
    }
    assert d in c.x.devices ==> c.x.devices[d := c.x.devices[d].(state := c.x.devices[d].state)] == c.x.devices;
  }

  /** A registration is refused only while the device has an order; otherwise it makes the
      profile what it asks for, whatever it was. */
  lemma RegisterDoes(
    p: ParaId, c: Chain, id: AccountId, para: ParaId, penalty: Balance, wcd: Moment, onoff: bool)
    ensures var effect := Dispatch(p, c, XRegister(id, para, penalty, wcd, onoff));
      && StaysClient(c, effect) && effect.chain.ledger == c.ledger
      && (effect.result == Err(DeviceExists) <==> id in c.x.orders)
      && (effect.result == Ok <==> id !in c.x.orders)
      && (effect.result == Ok ==>
        Becomes(effect,
          c.x.devices[id := X.DeviceProfile(penalty, wcd, para, if onoff then Ready else Off)],
          c.x.orders, c.x.events + [X.NewDevice(id)], None))
  {
  }

  /** A dead account's profile goes if it is off, and is parked in Timewait otherwise. */
  lemma KilledDoes(p: ParaId, c: Chain, who: AccountId)
    ensures var effect, devices := Dispatch(p, c, XKilled(who)), c.x.devices;
      && StaysClient(c, effect) && effect.chain.ledger == c.ledger && effect.result == Ok
      && effect.chain.x.orders == c.x.orders && effect.chain.x.events == c.x.events && effect.sent == None
      && (who in effect.chain.x.devices <==> who in devices && devices[who].state != Off)
      && (who in effect.chain.x.devices ==>
        effect.chain.x.devices[who] == devices[who].(state := Timewait))
      && (forall d :: d != who ==>
        && (d in effect.chain.x.devices <==> d in devices)
        && (d in devices ==> effect.chain.x.devices[d] == devices[d]))
  {
  }

  /** An acceptance leaves an event and nothing else; an order that strays here leaves nothing. */
  lemma AcceptanceDoes(p: ParaId, c: Chain, who: AccountId, d: AccountId, order: OrderBase)
    ensures var effect := Dispatch(p, c, XHandle(OrderAccept(who, d)));
      && StaysClient(c, effect) && effect.chain.ledger == c.ledger && effect.result == Ok
      && Becomes(effect, c.x.devices, c.x.orders, c.x.events + [X.Accept(who, d)], None)
    ensures Dispatch(p, c, XHandle(NewOrder(who, order))) == Effect(c, Ok, None)
  {
  }

  /** A reply that ends an order is refused if and only if there is none for its device, or no
      such device, whatever client it names. */
  lemma ReplyAnswers(p: ParaId, c: Chain, msg: XcmpMessage)
    requires msg.Terminal()
    ensures var r, d := Dispatch(p, c, XHandle(msg)).result, msg.device;
      && (r == Err(NoOrder) <==> d !in c.x.orders)
      && (r == Err(NoDevice) <==> d in c.x.orders && d !in c.x.devices)
      && (r == Ok <==> d in c.x.orders && d in c.x.devices)
  {
  }

  /** Whoever a done names pays the fee to the device, as far as his reserve goes; the penalty
      goes back to the device, or to whoever is named if it is late. */
  lemma DoneDoes(p: ParaId, c: Chain, who: AccountId, d: AccountId, onoff: bool)
    ensures var effect := Dispatch(p, c, XHandle(OrderDone(who, d, onoff)));
      && StaysClient(c, effect)
      && if effect.result == Ok then
           && d in c.x.orders && d in c.x.devices
           && var order, dev := c.x.orders[d], c.x.devices[d];
           && Becomes(effect,
             c.x.devices[d := X.DeviceProfile(dev.penalty, dev.wcd, dev.para, if onoff then Ready else Off)],
             c.x.orders - {d}, c.x.events + [X.Done(who, d)], None)
           && Draws(c.ledger, who, d, order.fee, d, if c.now < order.until then d else who, dev.penalty,
             effect.chain.ledger)
         else effect.chain.ledger == c.ledger
  {
    hide Unreserve, RepatriateReserved, Draws;
    if d in c.x.orders && d in c.x.devices {
      var order, penalty := c.x.orders[d], c.x.devices[d].penalty;
      PaymentDraws(c.ledger, who, order.fee, d, who, penalty);
    }
  }

  /** Whoever a reject names has the fee back, as far as his reserve goes; the penalty goes back
      to the device, or to the order's own client if it is late. */
  lemma RejectDoes(p: ParaId, c: Chain, who: AccountId, d: AccountId, onoff: bool)
    ensures var effect := Dispatch(p, c, XHandle(OrderReject(who, d, onoff)));
      && StaysClient(c, effect)
      && if effect.result == Ok then
           && d in c.x.orders && d in c.x.devices
           && var order, dev := c.x.orders[d], c.x.devices[d];
           && Becomes(effect,
             c.x.devices[d := X.DeviceProfile(dev.penalty, dev.wcd, dev.para, if onoff then Ready else Off)],
             c.x.orders - {d}, c.x.events + [X.Reject(who, d)], None)
           && Draws(c.ledger, who, who, order.fee, d, if c.now < order.until then d else order.client, dev.penalty,
             effect.chain.ledger)
         else effect.chain.ledger == c.ledger
  {
    hide Unreserve, RepatriateReserved, Draws;
    if d in c.x.orders && d in c.x.devices {
      var order, penalty := c.x.orders[d], c.x.devices[d].penalty;
      RefundDraws(c.ledger, who, order.fee, d, order.client, penalty);
    }
  }

  /** In particular for three different parties, and a device whose penalty is reserved: what a
      done takes from the stranger it names is the smaller of the fee and his whole reserve. */
  lemma StrangerPays(p: ParaId, c: Chain, who: AccountId, d: AccountId, onoff: bool)
    requires d in c.x.orders && d in c.x.devices && who != d && who != c.x.orders[d].client && c.x.orders[d].client != d
    requires c.x.devices[d].penalty <= Reserved(c.ledger, d)
    ensures var l, l' := c.ledger, Dispatch(p, c, XHandle(OrderDone(who, d, onoff))).chain.ledger;
      var order, penalty := c.x.orders[d], c.x.devices[d].penalty;
      var paid := if order.fee < Reserved(l, who) then order.fee else Reserved(l, who);
      && Reserved(l', who) == Reserved(l, who) - paid && Reserved(l', d) == Reserved(l, d) - penalty
      && (if c.now < order.until then
            Free(l', who) == Free(l, who) && Free(l', d) == Free(l, d) + paid + penalty
          else Free(l', who) == Free(l, who) + penalty && Free(l', d) == Free(l, d) + paid)
      && (forall a :: a != who && a != d ==> Free(l', a) == Free(l, a) && Reserved(l', a) == Reserved(l, a))
  {
    DoneDoes(p, c, who, d, onoff);
    ReplyAnswers(p, c, OrderDone(who, d, onoff));
    hide Dispatch;
  }
}
