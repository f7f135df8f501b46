/** Where orders in flight and held orders come from, and the orders no device can answer. */
module Origins {
  import opened Common
  import opened Balances
  import opened Chains
  import opened Network
  import opened Runs
  import opened DealHistories
  import opened Histories
  import Escrow
  import Guarantees
  import Replies
  import X = XChange
  import S = XChangeService
  import XE = XChangeEscrow
  import SE = XChangeServiceEscrow

  // Every order goes back to its client

  /** The step places `order` on chain `c` for a device registered there with parachain `para`. */
  predicate Places(sys: System, t: Transition, c: ParaId, client: AccountId, order: OrderBase, para: ParaId) {
    && c in sys.chains && t == Local(c, XOrder(client, order))
    && Dispatch(c, sys.chains[c], XOrder(client, order)).result == Ok
    && order.device !in sys.chains[c].x.orders && X.IsReady(sys.chains[c].x, order.device)
    && sys.chains[c].x.devices[order.device].para == para
  }

  lemma PlacementSends(c: Chain, p: ParaId, call: Call)
    requires var sent := Dispatch(p, c, call).sent; sent.Some? && sent.value.msg.NewOrder?
    ensures var sent := Dispatch(p, c, call).sent.value;
      && call == XOrder(sent.msg.client, sent.msg.order) && Dispatch(p, c, call).result == Ok
      && sent.msg.order.device !in c.x.orders && X.IsReady(c.x, sent.msg.order.device)
      && c.x.devices[sent.msg.order.device].para == sent.dest
  {
    hide Reserve, Unreserve, RepatriateReserved;
  }

  /** A message new in the network was sent by the chain it names, in this step. */
  lemma NewIsSent(sys: System, t: Transition, e: Envelope)
    requires Enabled(sys, t) && e !in sys.net && e in Next(sys, t).net
    ensures Sends(sys, t, e)
  {
    hide Dispatch;
  }

  lemma {:induction false} InFlightWasPlaced(states: seq<System>, ts: seq<Transition>, e: Envelope, n: nat)
    returns (i: nat)
    requires IsHistory(states, ts) && n <= |ts| && e in states[n].net && e.msg.NewOrder?
    ensures i < n && Places(states[i], ts[i], e.from, e.msg.client, e.msg.order, e.to)
  {
    hide Next, Enabled, Genesis, Places, Dispatch;
    if n == 0 {
      GenesisIsFresh(states[0], e.from);
      assert false;
    } else {
      if e in states[n - 1].net {
        i := InFlightWasPlaced(states, ts, e, n - 1);
      } else {
        i := n - 1;
        NewIsSent(states[i], ts[i], e);
        OrderIsPlaced(states[i], ts[i], e);
      }
    }
  }

  lemma OrderIsPlaced(sys: System, t: Transition, e: Envelope)
    requires Enabled(sys, t) && Sends(sys, t, e) && e.msg.NewOrder?
    ensures Places(sys, t, e.from, e.msg.client, e.msg.order, e.to)
  {
    PlacementSends(sys.chains[e.from], e.from, CallAt(t, e.from));
    hide Dispatch;
  }

  /** A foreign order is taken off the network, in time. */
  lemma HeldIsTaken(sys: System, t: Transition, q: ParaId, c: ParaId, d: AccountId)
    requires Enabled(sys, t) && q in sys.chains && d !in sys.chains[q].s.orders && Held(Next(sys, t), q, c, d)
    ensures var order := Next(sys, t).chains[q].s.orders[d];
      && t.Deliver? && t.toService && t.e == Envelope(c, q, NewOrder(order.client, order.Convert(d)))
      && sys.chains[q].now < order.until
  {
    hide SStep;
    StepOfChain(sys, t, q);
    hide Next;
    assert Acts(t, q) && CallAt(t, q).OfServicePallet();
    Replies.ServiceShape(q, sys.chains[q], CallAt(t, q));
  }

  /** Every order a device holds from chain `c` was placed there by its client, as it is, for a
      device registered with the chain that holds it, and then delivered in time. */
  lemma HeldWasPlaced(states: seq<System>, ts: seq<Transition>, q: ParaId, c: ParaId, d: AccountId, n: nat)
    returns (i: nat, j: nat)
    requires IsHistory(states, ts) && n <= |ts| && Held(states[n], q, c, d)
    ensures var order := states[n].chains[q].s.orders[d];
      && i < j < n && Places(states[i], ts[i], c, order.client, order.Convert(d), q)
      && ts[j].Deliver? && ts[j].toService && ts[j].e == Envelope(c, q, NewOrder(order.client, order.Convert(d)))
      && HeldSince(states, q, d, order, j, n) && states[j].chains[q].now < order.until
  {
    HistoryKeepsChains(states, ts, n);
    j := HeldWasPlacedInTime(states, ts, q, d, n);
    hide Next, Enabled, Genesis, Places;
    HeldIsTaken(states[j], ts[j], q, c, d);
    assert ts[j].e in states[j].net by {
      DeliveryTakes(states[j], ts[j]);
    }
    i := InFlightWasPlaced(states, ts, ts[j].e, j);
  }

  lemma DeliveryTakes(sys: System, t: Transition)
    requires Enabled(sys, t) && t.Deliver?
    ensures t.e in sys.net
  {
  }

  // Orders no device can answer

  /** No other chain of the system has this parachain id. */
  predicate Unreachable(sys: System, c: ParaId, para: ParaId) {
    para == c || para !in sys.chains
  }

  lemma ClockGoesOn(sys: System, t: Transition, p: ParaId)
    requires Enabled(sys, t) && p in sys.chains
    ensures p in Next(sys, t).chains && sys.chains[p].now <= Next(sys, t).chains[p].now
  {
    hide XStep, SStep;
  }

  /** What is in flight after a step and can still take effect could do so before, or was sent. */
  lemma TokenWasThere(sys: System, t: Transition, e: Envelope, c: ParaId, d: AccountId)
    requires Enabled(sys, t) && e in Next(sys, t).net && IsToken(Next(sys, t), e, c, d, false)
    ensures IsToken(sys, e, c, d, false)
    ensures e in sys.net || Sends(sys, t, e)
  {
    if e !in sys.net {
      NewIsSent(sys, t, e);
    }
    if e.msg.NewOrder? {
      assert Next(sys, t).chains.Keys == sys.chains.Keys;
      ClockGoesOn(sys, t, e.to);
    }
  }

  /** Nothing becomes outstanding of `d`, as long as it has an order, or is registered with a
      chain no message reaches. */
  lemma QuiescentStays(sys: System, t: Transition, c: ParaId, d: AccountId)
    requires Enabled(sys, t) && c in sys.chains && Quiescent(sys, c, d, false)
    requires d in sys.chains[c].x.orders
      || (d in sys.chains[c].x.devices && Unreachable(sys, c, sys.chains[c].x.devices[d].para))
    ensures Quiescent(Next(sys, t), c, d, false)
  {
    var sys' := Next(sys, t);
    assert sys'.chains.Keys == sys.chains.Keys;
    hide Next, Dispatch;
    forall e | e in sys'.net
      ensures !IsToken(sys', e, c, d, false)
    {
      if IsToken(sys', e, c, d, false) {
        TokenWasThere(sys, t, e, c, d);
        SentIsNoToken(sys, t, e, c, d);
      }
    }
    forall q
      ensures !Held(sys', q, c, d)
    {
      if Held(sys', q, c, d) {
        HeldStays(sys, t, q, c, d);
      }
    }
  }

  lemma ReplyNeedsHeld(sys: System, t: Transition, e: Envelope)
    requires Sends(sys, t, e) && e.msg.Terminal()
    ensures Held(sys, e.from, e.to, e.msg.device)
  {
    TerminalHasCause(e.from, sys.chains[e.from], CallAt(t, e.from));
  }

  lemma SentIsNoToken(sys: System, t: Transition, e: Envelope, c: ParaId, d: AccountId)
    requires Enabled(sys, t) && c in sys.chains && Quiescent(sys, c, d, false)
    requires d in sys.chains[c].x.orders
      || (d in sys.chains[c].x.devices && Unreachable(sys, c, sys.chains[c].x.devices[d].para))
    requires IsToken(sys, e, c, d, false)
    ensures !Sends(sys, t, e)
  {
    hide Dispatch;
    if Sends(sys, t, e) {
      if e.msg.NewOrder? {
        OrderIsPlaced(sys, t, e);
      } else {
        ReplyNeedsHeld(sys, t, e);
      }
      assert false;
    }
  }

  /** An order a device keeps is the one it had. */
  lemma HeldWasHeld(sys: System, t: Transition, q: ParaId, c: ParaId, d: AccountId)
    requires Enabled(sys, t) && Held(Next(sys, t), q, c, d) && q in sys.chains && d in sys.chains[q].s.orders
    ensures Held(sys, q, c, d)
  {
    hide SStep;
    StepOfChain(sys, t, q);
    hide Next;
    if Acts(t, q) && CallAt(t, q).OfServicePallet() {
      Replies.ServiceShape(q, sys.chains[q], CallAt(t, q));
    }
  }

  lemma HeldStays(sys: System, t: Transition, q: ParaId, c: ParaId, d: AccountId)
    requires Enabled(sys, t) && Held(Next(sys, t), q, c, d) && (forall p :: !Held(sys, p, c, d))
    ensures exists e :: e in sys.net && IsToken(sys, e, c, d, false)
  {
    assert q in sys.chains;
    hide Next;
    if d in sys.chains[q].s.orders {
      HeldWasHeld(sys, t, q, c, d);
      assert false;
    } else {
      HeldIsTaken(sys, t, q, c, d);
      assert IsToken(sys, t.e, c, d, false);
    }
  }

  /** A live order of the client pallet goes by its client's late cancel, or by a reply. */
  lemma OrderGoes(p: ParaId, c: Chain, call: Call, d: AccountId)
    requires XE.Engaged(c.x) && call.OfClientPallet() && d in c.x.orders && d !in XStep(c, call).state.orders
    ensures d in c.x.devices
    ensures
      || (call.XHandle? && call.msg.Terminal() && call.msg.device == d)
      || (call == XCancel(c.x.orders[d].client, d) && c.now >= c.x.orders[d].until
          && MoveOf(p, c, call) == OnClient(Escrow.Settle(XE.DealOf(c.x, d), false, true)))
  {
    hide Reserve, Unreserve, RepatriateReserved;
  }

  /** Up to state `n`, the order placed in step `i` is live, and nothing can answer it. */
  lemma {:induction false} NothingAnswers(
    states: seq<System>, ts: seq<Transition>, c: ParaId, client: AccountId, order: OrderBase, para: ParaId,
    i: nat, n: nat)
    requires IsRun(states, ts, c) && i < n <= |ts| && Places(states[i], ts[i], c, client, order, para)
    requires Unreachable(states[i], c, para)
    requires forall k :: i < k <= n ==> c in states[k].chains && order.device in states[k].chains[c].x.orders
    ensures Quiescent(states[n], c, order.device, false)
    ensures states[n].chains[c].x.orders[order.device] == order.Convert(client)
  {
    hide Next, Enabled, Quiet, Genesis, Inv, Quiescent;
    if n == i + 1 {
      RunInv(states, ts, c, i);
      PlacedOrder(states[i], ts[i], c, client, order, para);
    } else {
      NothingAnswers(states, ts, c, client, order, para, i, n - 1);
      HistoryEngaged(states, ts, c, n - 1);
      LiveStaysUnanswered(states[n - 1], ts[n - 1], c, order.device);
    }
  }

  lemma LiveStaysUnanswered(sys: System, t: Transition, c: ParaId, d: AccountId)
    requires Enabled(sys, t) && c in sys.chains && Engaged(sys.chains[c]) && d in sys.chains[c].x.orders
    requires Quiescent(sys, c, d, false)
    ensures c in Next(sys, t).chains && Quiescent(Next(sys, t), c, d, false)
    ensures var x, x' := sys.chains[c].x, Next(sys, t).chains[c].x; d in x'.orders ==> x'.orders[d] == x.orders[d]
  {
    QuiescentStays(sys, t, c, d);
    hide Next, Quiescent;
    ClientOrderStays(sys, t, c, d);
  }

  lemma PlacedOrder(
    sys: System, t: Transition, c: ParaId, client: AccountId, order: OrderBase, para: ParaId)
    requires Enabled(sys, t) && Inv(sys, c) && Places(sys, t, c, client, order, para) && Unreachable(sys, c, para)
    ensures c in Next(sys, t).chains && order.device in Next(sys, t).chains[c].x.orders
    ensures Next(sys, t).chains[c].x.orders[order.device] == order.Convert(client)
    ensures Quiescent(Next(sys, t), c, order.device, false)
  {
    hide Reserve;
    assert Quiescent(sys, c, order.device, false) by {
      assert TokenInv(sys, c, order.device, false);
    }
    QuiescentStays(sys, t, c, order.device);
    hide Quiescent;
  }

  /** An order for a device registered with its client's own chain, or with a chain outside the
      system, is never answered: it ends only by its client's cancel after the deadline, which
      costs the device its penalty. */
  lemma UnreachableEndsByCancel(
    states: seq<System>, ts: seq<Transition>, c: ParaId, client: AccountId, order: OrderBase, para: ParaId,
    i: nat, n: nat)
    requires IsRun(states, ts, c) && i < n < |ts| && Places(states[i], ts[i], c, client, order, para)
    requires Unreachable(states[i], c, para)
    requires forall k :: i < k <= n ==> c in states[k].chains && order.device in states[k].chains[c].x.orders
    requires c in states[n + 1].chains && order.device !in states[n + 1].chains[c].x.orders
    ensures ts[n] == Local(c, XCancel(client, order.device)) && states[n].chains[c].now >= order.until
    ensures var act := ActOf(MoveIn(states, ts, c, n), true);
      && act.Settle? && !act.paid && act.late
      && act.deal.client == client && act.deal.device == order.device && act.deal.fee == order.fee
  {
    var d := order.device;
    NothingAnswers(states, ts, c, client, order, para, i, n);
    HistoryEngaged(states, ts, c, n);
    StepOfChain(states[n], ts[n], c);
    assert !IsMessage(states[n], ts[n], c, d);
    hide Next, Quiet, Genesis, XStep, SStep, Quiescent, IsToken;
    OrderGoes(c, states[n].chains[c], CallAt(ts[n], c), d);
  }

  /** The step delivers a reply for `d` to chain `c`. */
  predicate IsMessage(sys: System, t: Transition, c: ParaId, d: AccountId) {
    && t.Deliver? && t.e in sys.net && IsToken(sys, t.e, c, d, false)
    && t.e.to == c && t.e.msg.Terminal() && t.e.msg.device == d
  }

  /** On its client's own chain such an order is even taken, as a local one: both parties set
      aside the same amounts a second time, and no reply is sent. */
  lemma OwnChainOrderReservesAgain(
    p: ParaId, c: Chain, client: AccountId, order: OrderBase, answer: Option<DeviceState>)
    requires S.HookAnswer(answer)
    ensures var effect, d := Dispatch(p, c, SHandle(p, NewOrder(client, order), answer)), order.device;
      && effect.sent == None
      && (effect.result == Ok ==>
        && d in effect.chain.s.orders && d in effect.chain.s.devices && effect.chain.x == c.x
        && Escrow.SetAside(c.ledger, SE.DealOf(effect.chain.s, d), effect.chain.ledger)
        && SE.DealOf(effect.chain.s, d).client == client && SE.DealOf(effect.chain.s, d).fee == order.fee)
  {
    hide S.ReceiveStep;
    Guarantees.ServicePlacementExact(
      p, c.ledger, c.s, c.now, order.Convert(client).(paraid := p), order.device, answer);
    Replies.ReceiveShape(p, c.ledger, c.s, c.now, order.Convert(client).(paraid := p), order.device, answer);
  }
}
