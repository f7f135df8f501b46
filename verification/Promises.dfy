/** What each party can bring about from every state of every run, whatever was lost. */
module Promises {
  import opened Common
  import opened Balances
  import opened Chains
  import opened Network
  import opened Runs
  import Escrow
  import Guarantees
  import X = XChange
  import S = XChangeService
  import XE = XChangeEscrow
  import SE = XChangeServiceEscrow

  // No escrow is locked for ever

  /** The passing of time, if it takes any, until `until` has come on chain `p`. */
  function Wait(sys: System, p: ParaId, until: Moment): Transition
    requires p in sys.chains
  {
    Local(p, Tick(if sys.chains[p].now < until then until else sys.chains[p].now))
  }

  /** In every state of every run of the client chain, whatever was lost on the way, a live order
      ends if time passes and its client cancels: two steps that chain can always take. */
  lemma NoEscrowLockedForever(states: seq<System>, ts: seq<Transition>, p: ParaId, d: AccountId, n: nat)
    requires IsRun(states, ts, p) && n <= |ts| && p in states[n].chains && d in states[n].chains[p].x.orders
    ensures d in states[n].chains[p].x.devices
    ensures var c := states[n].chains[p];
      var order := c.x.orders[d];
      var wait := Wait(states[n], p, order.until);
      && Enabled(states[n], wait)
      && var waited, cancel := Next(states[n], wait), Local(p, XCancel(order.client, d));
      && Enabled(waited, cancel)
      && var c' := Dispatch(p, waited.chains[p], XCancel(order.client, d)).chain;
      && Next(waited, cancel).chains[p] == c' && d !in c'.x.orders
      && Escrow.PaidOut(c.ledger, XE.DealOf(c.x, d), false, true, c'.ledger)
  {
    RunInv(states, ts, p, n);
    var c := states[n].chains[p];
    var now := if c.now < c.x.orders[d].until then c.x.orders[d].until else c.now;
    var waited := c.(now := now);
    assert forall a :: Slack(p, waited, a) == Slack(p, c, a);
    assert Dispatch(p, c, Tick(now)).chain == waited;
    Guarantees.ClientCanCancel(p, waited, d);
  }

  /** The same for a held order on the service side: a local one is refunded, and a foreign one,
      in every history, is answered to the chain and client it came from. */
  lemma NoServiceEscrowLockedForever(states: seq<System>, ts: seq<Transition>, p: ParaId, d: AccountId, n: nat)
    requires IsHistory(states, ts) && n <= |ts| && p in states[n].chains && d in states[n].chains[p].s.orders
    requires states[n].chains[p].s.orders[d].paraid == p ==> IsRun(states, ts, p)
    ensures d in states[n].chains[p].s.devices
    ensures var c := states[n].chains[p];
      var order := c.s.orders[d];
      var wait := Wait(states[n], p, order.until);
      && Enabled(states[n], wait)
      && var waited, cancel := Next(states[n], wait), Local(p, SCancel(order.client, d));
      && Enabled(waited, cancel)
      && var c' := Dispatch(p, waited.chains[p], SCancel(order.client, d)).chain;
      && Next(waited, cancel).chains[p] == c' && d !in c'.s.orders
      && if order.paraid == p then Escrow.PaidOut(c.ledger, SE.DealOf(c.s, d), false, true, c'.ledger)
         else
           c'.ledger == c.ledger
           && Envelope(p, order.paraid, OrderReject(order.client, d, false)) in Next(waited, cancel).net
  {
    HistoryKeepsChains(states, ts, n);
    HistoryEngaged(states, ts, p, n);
    var c := states[n].chains[p];
    var now := if c.now < c.s.orders[d].until then c.s.orders[d].until else c.now;
    var waited := c.(now := now);
    if c.s.orders[d].paraid == p {
      RunInv(states, ts, p, n);
      assert forall a :: Slack(p, waited, a) == Slack(p, c, a);
    }
    assert Dispatch(p, c, Tick(now)).chain == waited;
    Guarantees.ServiceClientCanCancel(p, waited, d);
  }

  // A device is never stuck

  /** In every state of every history a registered service device is ready, or one call of its
      owner, which its chain can take at once, makes it ready. */
  lemma DeviceCanRecover(states: seq<System>, ts: seq<Transition>, p: ParaId, d: AccountId, n: nat)
    requires IsHistory(states, ts) && n <= |ts| && p in states[n].chains && d in states[n].chains[p].s.devices
    ensures
      || S.IsReady(states[n].chains[p].s, d)
      || exists call <- [SSetState(d, true), SAccept(d, true, true)] ::
           && Enabled(states[n], Local(p, call))
           && p in Next(states[n], Local(p, call)).chains
           && S.IsReady(Next(states[n], Local(p, call)).chains[p].s, d)
           && Dispatch(p, states[n].chains[p], call).result == Ok
  {
    HistoryKeepsChains(states, ts, n);
    HistoryEngaged(states, ts, p, n);
    var c, calls := states[n].chains[p], [SSetState(d, true), SAccept(d, true, true)];
    Guarantees.ServiceDeviceCanRecover(p, c, d);
    hide S.AcceptStep;
    assert calls[0] in calls && calls[1] in calls;
    StepOfChain(states[n], Local(p, calls[0]), p);
    StepOfChain(states[n], Local(p, calls[1]), p);
  }

  // Work is paid

  /** In every state of every history, a device can accept an order that is not yet due, if it has
      not done so, and report an accepted one done, however late: a local order pays it the fee,
      and gives back its penalty unless it is late, and a foreign one is answered so. */
  lemma WorkIsPaid(states: seq<System>, ts: seq<Transition>, p: ParaId, d: AccountId, n: nat, onoff: bool)
    requires IsHistory(states, ts) && n <= |ts| && p in states[n].chains && d in states[n].chains[p].s.orders
    requires states[n].chains[p].s.orders[d].paraid == p ==> IsRun(states, ts, p)
    ensures d in states[n].chains[p].s.devices
    ensures var c := states[n].chains[p];
      var order := c.s.orders[d];
      var working := Dispatch(p, c, SAccept(d, false, onoff)).chain;
      var late := c.now >= order.until;
      var ready := if c.s.devices[d].state == Busy then working else c;
      var done := Dispatch(p, ready, SDone(d, onoff));
      (c.s.devices[d].state == Busy ==> !late) ==>
        && done.result == Ok && done.chain.s.orders == c.s.orders - {d}
        && if order.paraid == p then Escrow.PaidOut(c.ledger, SE.DealOf(c.s, d), true, late, done.chain.ledger)
           else
             done.chain.ledger == c.ledger
             && done.sent == Some(Sent(order.paraid, OrderDone(order.client, d, onoff)))
  {
    HistoryKeepsChains(states, ts, n);
    HistoryEngaged(states, ts, p, n);
    var c := states[n].chains[p];
    var local := c.s.orders[d].paraid == p;
    if local {
      RunInv(states, ts, p, n);
    }
    hide Unreserve, RepatriateReserved, Escrow.PaidOut, Sound;
    Guarantees.ServiceDoneExact(p, c, d, onoff);
    if c.s.devices[d].state == Busy && c.now < c.s.orders[d].until {
      AcceptedThenDone(p, c, d, onoff);
    }
  }

  lemma AcceptedThenDone(p: ParaId, c: Chain, d: AccountId, onoff: bool)
    requires d in c.s.orders && d in c.s.devices && c.s.devices[d].state == Busy && c.now < c.s.orders[d].until
    requires c.s.orders[d].paraid == p ==> Sound(p, c)
    ensures var working := Dispatch(p, c, SAccept(d, false, onoff)).chain;
      var done := S.DoneStep(p, working.ledger, working.s, working.now, d, onoff);
      && working.ledger == c.ledger && working.now == c.now && working.s.orders == c.s.orders
      && d in working.s.devices && working.s.devices[d] == c.s.devices[d].(state := DeviceState.Accepted)
      && Guarantees.EndsOrder(p, working, done, d, true, onoff)
  {
    hide Unreserve, RepatriateReserved, Escrow.PaidOut, Guarantees.EndsOrder;
    var working := Dispatch(p, c, SAccept(d, false, onoff)).chain;
    Guarantees.ServiceAcceptExact(p, c, d, onoff);
    if c.s.orders[d].paraid == p {
      DispatchMoves(p, c, SAccept(d, false, onoff));
    }
    Guarantees.ServiceDoneExact(p, working, d, onoff);
  }

  /** Across chains: if the client's order is still there when the report of an accepted order
      arrives, the two steps pay it out as done. */
  lemma WorkIsPaidAcross(
    states: seq<System>, ts: seq<Transition>, q: ParaId, p: ParaId, d: AccountId, n: nat, onoff: bool)
    requires IsRun(states, ts, p) && n <= |ts| && Held(states[n], q, p, d) && p in states[n].chains
    requires d in states[n].chains[q].s.devices
    requires states[n].chains[q].s.devices[d].state == DeviceState.Accepted
    requires d in states[n].chains[p].x.orders
    ensures d in states[n].chains[p].x.devices
    ensures var c := states[n].chains[p];
      var report := Local(q, SDone(d, onoff));
      var deliver := Deliver(Envelope(q, p, OrderDone(c.x.orders[d].client, d, onoff)), false, None);
      && Enabled(states[n], report) && Enabled(Next(states[n], report), deliver)
      && var last := Next(Next(states[n], report), deliver);
      && p in last.chains && d !in last.chains[p].x.orders
      && Escrow.PaidOut(
        c.ledger, XE.DealOf(c.x, d), true, c.now >= c.x.orders[d].until, last.chains[p].ledger)
  {
    hide S.DoneStep, X.HandleStep, Escrow.PaidOut;
    RunInv(states, ts, p, n);
    var c, s := states[n].chains[p], states[n].chains[q].s;
    assert TokenInv(states[n], p, d, false);
    Guarantees.ServiceDoneExact(q, states[n].chains[q], d, onoff);
    assert s.orders[d].client == c.x.orders[d].client;
    Guarantees.ClientReplySettles(p, c, OrderDone(c.x.orders[d].client, d, onoff));
  }
}
