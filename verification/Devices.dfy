/** Why a device is engaged: behind every engaged device is one placement, on terms that have
    not changed since. */
module Devices {
  import opened Common
  import opened Balances
  import opened Chains
  import opened Network
  import opened Runs
  import Guarantees
  import Replies
  import Tokens
  import X = XChange
  import S = XChangeService
  import XE = XChangeEscrow

  // The service side

  predicate Works(s: S.State, d: AccountId) {
    d in s.devices && (s.devices[d].state == Busy || s.devices[d].state == DeviceState.Accepted)
  }

  predicate SameTerms(s: S.State, s': S.State, d: AccountId) {
    d in s.devices && d in s'.devices && s'.devices[d] == s.devices[d].(state := s'.devices[d].state)
  }

  /** The call makes the ready, free device `d` take `order`. */
  predicate Engages(p: ParaId, s: S.State, call: Call, s': S.State, d: AccountId, order: Order) {
    && S.IsReady(s, d) && d !in s.orders && SameTerms(s, s', d)
    && (call.SOrder? || call.SHandle?) && Replies.DeviceOf(call) == d && Replies.Offered(p, call) == Some(order)
    && d in s'.orders && s'.orders[d] == order
  }

  /** The device goes on working, on the same terms, for the same order or for none any more. */
  predicate GoesOn(s: S.State, s': S.State, d: AccountId) {
    Works(s, d) && SameTerms(s, s', d) && (d in s'.orders ==> d in s.orders && s'.orders[d] == s.orders[d])
  }

  /** A device works because it did before, or because it has just taken an order. */
  lemma WorkComesFromOrders(p: ParaId, c: Chain, call: Call, d: AccountId)
    requires call.OfServicePallet() && Works(SStep(p, c, call).state, d)
    ensures var s, s' := c.s, SStep(p, c, call).state;
      || GoesOn(s, s', d)
      || (Replies.Offered(p, call).Some? && Engages(p, s, call, s', d, Replies.Offered(p, call).value))
  {
    if Replies.DeviceOf(call) != d {
      Guarantees.ServiceTouchesOneDevice(p, c, call, d);
    } else {
      Guarantees.ServiceStateMachine(p, c, call);
      Replies.ServiceShape(p, c, call);
    }
  }

  /** Step `t` makes the device of chain `p` take an order. */
  predicate EngagesIn(sys: System, t: Transition, p: ParaId, sys': System, d: AccountId) {
    && p in sys.chains && p in sys'.chains && Acts(t, p)
    && var call := CallAt(t, p);
    && Replies.Offered(p, call).Some?
    && Engages(p, sys.chains[p].s, call, sys'.chains[p].s, d, Replies.Offered(p, call).value)
  }

  /** Step `i` made the device take an order, and up to state `n` it has worked ever since, on
      the same terms, for that order or for none any more. */
  ghost predicate ServesSince(states: seq<System>, ts: seq<Transition>, p: ParaId, d: AccountId, i: nat, n: nat)
    requires IsSegment(states, ts) && n <= |ts|
  {
    && i < n && EngagesIn(states[i], ts[i], p, states[i + 1], d)
    && var order := Replies.Offered(p, CallAt(ts[i], p)).value;
    forall k :: i < k <= n ==>
      && p in states[k].chains
      && var s := states[k].chains[p].s;
      Works(s, d) && SameTerms(states[i].chains[p].s, s, d) && (d in s.orders ==> s.orders[d] == order)
  }

  lemma ServesOn(states: seq<System>, ts: seq<Transition>, p: ParaId, d: AccountId, i: nat, n: nat)
    requires IsSegment(states, ts) && 0 < n <= |ts| && ServesSince(states, ts, p, d, i, n - 1)
    requires p in states[n].chains && GoesOn(states[n - 1].chains[p].s, states[n].chains[p].s, d)
    requires Works(states[n].chains[p].s, d)
    ensures ServesSince(states, ts, p, d, i, n)
  {
    hide IsSegment, Engages, Works;
  }

  lemma ServesNow(states: seq<System>, ts: seq<Transition>, p: ParaId, d: AccountId, i: nat)
    requires IsSegment(states, ts) && i < |ts| && EngagesIn(states[i], ts[i], p, states[i + 1], d)
    requires Works(states[i + 1].chains[p].s, d)
    ensures ServesSince(states, ts, p, d, i, i + 1)
  {
  }

  lemma WorkStep(sys: System, t: Transition, p: ParaId, d: AccountId)
    requires Enabled(sys, t) && p in sys.chains
    ensures p in Next(sys, t).chains
    ensures Works(Next(sys, t).chains[p].s, d) ==>
      || EngagesIn(sys, t, p, Next(sys, t), d)
      || (Works(sys.chains[p].s, d) && GoesOn(sys.chains[p].s, Next(sys, t).chains[p].s, d))
  {
    StepOfChain(sys, t, p);
    hide Next, SStep, XStep, Engages;
    if Works(Next(sys, t).chains[p].s, d) && Acts(t, p) && CallAt(t, p).OfServicePallet() {
      WorkComesFromOrders(p, sys.chains[p], CallAt(t, p), d);
    }
  }

  /** Every working device was made to work by one order that found it ready and free, whatever
      its environment does: no other call engages a device, and until it is set free neither its
      penalty nor its working time changes, nor does it get another order. */
  lemma {:induction false} WorkWasOrdered(
    states: seq<System>, ts: seq<Transition>, p: ParaId, d: AccountId, n: nat)
    returns (i: nat)
    requires IsHistory(states, ts) && n <= |ts| && p in states[0].chains
    requires p in states[n].chains && Works(states[n].chains[p].s, d)
    ensures ServesSince(states, ts, p, d, i, n)
  {
    hide Next, Enabled, Genesis, EngagesIn, ServesSince, GoesOn, Engaged;
    if n == 0 {
      GenesisIsFresh(states[0], p);
      assert false;
    } else {
      hide Works;
      HistoryEngaged(states, ts, p, n - 1);
      WorkStep(states[n - 1], ts[n - 1], p, d);
      if EngagesIn(states[n - 1], ts[n - 1], p, states[n], d) {
        i := n - 1;
        ServesNow(states, ts, p, d, i);
      } else {
        i := WorkWasOrdered(states, ts, p, d, n - 1);
        ServesOn(states, ts, p, d, i, n);
      }
    }
  }

  // The client side

  predicate SameClientTerms(x: X.State, x': X.State, d: AccountId) {
    d in x.devices && d in x'.devices && x'.devices[d] == x.devices[d].(state := x'.devices[d].state)
  }

  predicate IsBusy(x: X.State, d: AccountId) {
    d in x.devices && x.devices[d].state == Busy
  }

  /** The call makes a client's order with the ready, free device `d`. */
  predicate Books(x: X.State, call: Call, x': X.State, d: AccountId) {
    && X.IsReady(x, d) && d !in x.orders && SameClientTerms(x, x', d)
    && call.XOrder? && call.order.device == d
    && d in x'.orders && x'.orders[d] == call.order.Convert(call.who)
  }

  predicate StaysBusy(x: X.State, x': X.State, d: AccountId) {
    && IsBusy(x, d) && SameClientTerms(x, x', d)
    && (d in x'.orders ==> d in x.orders && x'.orders[d] == x.orders[d])
  }

  /** A device is busy because it was before, or because an order has just been made with it. */
  lemma BusyComesFromOrders(c: Chain, call: Call, d: AccountId)
    requires XE.Engaged(c.x) && call.OfClientPallet() && IsBusy(XStep(c, call).state, d)
    ensures StaysBusy(c.x, XStep(c, call).state, d) || Books(c.x, call, XStep(c, call).state, d)
  {
    hide X.OrderStep, X.CancelStep, X.OnRejectStep, X.OnDoneStep;
    Guarantees.ClientStateMachine(c, call, d);
    Tokens.ClientShape(c, call, d);
    if call.XOrder? {
      Guarantees.ClientPlacementAtomic(c.ledger, c.x, c.now, call.who, call.order);
    }
  }

  /** Step `t` makes a client's order with the device on chain `p`. */
  predicate BooksIn(sys: System, t: Transition, p: ParaId, sys': System, d: AccountId) {
    && p in sys.chains && p in sys'.chains && Acts(t, p)
    && Books(sys.chains[p].x, CallAt(t, p), sys'.chains[p].x, d)
  }

  lemma BusyStep(sys: System, t: Transition, p: ParaId, d: AccountId)
    requires Enabled(sys, t) && p in sys.chains && Engaged(sys.chains[p])
    ensures p in Next(sys, t).chains
    ensures IsBusy(Next(sys, t).chains[p].x, d) ==>
      || BooksIn(sys, t, p, Next(sys, t), d)
      || (IsBusy(sys.chains[p].x, d) && StaysBusy(sys.chains[p].x, Next(sys, t).chains[p].x, d))
  {
    StepOfChain(sys, t, p);
    hide Next, SStep, XStep, Books;
    if IsBusy(Next(sys, t).chains[p].x, d) && Acts(t, p) && CallAt(t, p).OfClientPallet() {
      BusyComesFromOrders(sys.chains[p], CallAt(t, p), d);
    }
  }

  /** Step `i` placed an order with the device, and up to state `n` it has been busy ever since,
      on the same terms, with that order or with none any more. */
  ghost predicate BookedSince(states: seq<System>, ts: seq<Transition>, p: ParaId, d: AccountId, i: nat, n: nat)
    requires IsSegment(states, ts) && n <= |ts|
  {
    && i < n && BooksIn(states[i], ts[i], p, states[i + 1], d)
    && var call := CallAt(ts[i], p);
    forall k :: i < k <= n ==>
      && p in states[k].chains
      && var x := states[k].chains[p].x;
      && IsBusy(x, d) && SameClientTerms(states[i].chains[p].x, x, d)
      && (d in x.orders ==> x.orders[d] == call.order.Convert(call.who))
  }

  lemma BookedOn(states: seq<System>, ts: seq<Transition>, p: ParaId, d: AccountId, i: nat, n: nat)
    requires IsSegment(states, ts) && 0 < n <= |ts| && BookedSince(states, ts, p, d, i, n - 1)
    requires p in states[n].chains && StaysBusy(states[n - 1].chains[p].x, states[n].chains[p].x, d)
    requires IsBusy(states[n].chains[p].x, d)
    ensures BookedSince(states, ts, p, d, i, n)
  {
    hide IsSegment, IsBusy;
  }

  lemma BookedNow(states: seq<System>, ts: seq<Transition>, p: ParaId, d: AccountId, i: nat)
    requires IsSegment(states, ts) && i < |ts| && BooksIn(states[i], ts[i], p, states[i + 1], d)
    requires IsBusy(states[i + 1].chains[p].x, d)
    ensures BookedSince(states, ts, p, d, i, i + 1)
  {
  }

  /** The same on the client side: behind every busy device is one order that found it ready and
      free, and until it is set free or abandoned its terms do not change, nor does it get
      another order. */
  lemma {:induction false} BusyWasBooked(
    states: seq<System>, ts: seq<Transition>, p: ParaId, d: AccountId, n: nat)
    returns (i: nat)
    requires IsHistory(states, ts) && n <= |ts| && p in states[0].chains
    requires p in states[n].chains && IsBusy(states[n].chains[p].x, d)
    ensures BookedSince(states, ts, p, d, i, n)
  {
    hide Next, Enabled, Genesis, BookedSince, StaysBusy, Engaged, BooksIn;
    if n == 0 {
      GenesisIsFresh(states[0], p);
      assert false;
    } else {
      hide IsBusy;
      HistoryEngaged(states, ts, p, n - 1);
      BusyStep(states[n - 1], ts[n - 1], p, d);
      if BooksIn(states[n - 1], ts[n - 1], p, states[n], d) {
        i := n - 1;
        BookedNow(states, ts, p, d, i);
      } else {
        i := BusyWasBooked(states, ts, p, d, n - 1);
        BookedOn(states, ts, p, d, i, n);
      }
    }
  }
}
