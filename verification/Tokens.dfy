/** Every step keeps the token invariant. */
module Tokens {
  import opened Common
  import opened Balances
  import opened Chains
  import opened Network
  import opened Replies
  import X = XChange
  import S = XChangeService
  import XE = XChangeEscrow

  function Without(sys: System, e: Envelope): System {
    sys.(net := sys.net - multiset{e})
  }

  /** Nothing of the order of `d` placed by `c` came or changed; something may have gone. */
  ghost predicate FewerTokens(sys: System, sys': System, c: ParaId, d: AccountId, dead: bool)
    requires c in sys.chains && c in sys'.chains
  {
    && sys'.chains[c].x == sys.chains[c].x
    && (forall e :: e in sys'.net && IsToken(sys', e, c, d, dead) ==>
      e in sys.net && IsToken(sys, e, c, d, dead) && sys'.net[e] <= sys.net[e])
    && (forall q :: Held(sys', q, c, d) ==>
      Held(sys, q, c, d) && sys'.chains[q].s.orders[d] == sys.chains[q].s.orders[d])
  }

  lemma FewerTokensKeep(sys: System, sys': System, c: ParaId, d: AccountId, dead: bool)
    requires c in sys.chains && c in sys'.chains && TokenInv(sys, c, d, dead)
    requires FewerTokens(sys, sys', c, d, dead)
    ensures TokenInv(sys', c, d, dead)
  {
  }

  /** A message leaving the network leaves at most what was there; if it was a token, nothing
      is outstanding any more. */
  lemma RemovalKeepsToken(sys: System, e: Envelope, c: ParaId, d: AccountId, dead: bool)
    requires c in sys.chains && e in sys.net && TokenInv(sys, c, d, dead)
    ensures TokenInv(Without(sys, e), c, d, dead)
    ensures IsToken(sys, e, c, d, dead) ==> Quiescent(Without(sys, e), c, d, dead) && !X.IsReady(sys.chains[c].x, d)
    ensures IsToken(sys, e, c, d, dead) && d in sys.chains[c].x.orders ==>
      MatchesOrder(e, sys.chains[c].x.orders[d], d)
  {
    var mid := Without(sys, e);
    assert forall q :: Held(mid, q, c, d) == Held(sys, q, c, d);
    assert forall e' :: IsToken(mid, e', c, d, dead) == IsToken(sys, e', c, d, dead);
    FewerTokensKeep(sys, mid, c, d, dead);
    if IsToken(sys, e, c, d, dead) {
      assert sys.net[e] == 1 && e !in mid.net;
    }
  }

  /** What one call of the client pallet does to the order and readiness of `d`. */
  lemma ClientShape(c: Chain, call: Call, d: AccountId)
    requires XE.Engaged(c.x) && call.OfClientPallet()
    ensures var step := XStep(c, call); var x, x' := c.x, step.state;
      if call.XOrder? && step.result.Ok? && call.order.device == d then
        && X.IsReady(x, d) && !X.IsReady(x', d) && d !in x.orders
        && d in x'.orders && x'.orders[d] == call.order.Convert(call.who)
        && step.sent.Some? && step.sent.value.msg == NewOrder(call.who, call.order)
      else
        && (d in x'.orders ==> d in x.orders && x'.orders[d] == x.orders[d])
        && (step.sent.Some? ==>
          call.XOrder? && step.sent.value.msg.NewOrder? && step.sent.value.msg.order.device != d)
        && (X.IsReady(x', d) ==>
          || X.IsReady(x, d)
          || (call.XRegister? && call.onoff && call.id == d && d !in x.orders)
          || (call.XHandle? && call.msg.Terminal() && call.msg.device == d))
  {
  }

  /** The system after chain `p`'s client pallet took `step`. */
  function AfterClient(sys: System, p: ParaId, step: X.Step): System
    requires p in sys.chains
  {
    System(sys.chains[p := AfterX(sys.chains[p], step).chain], sys.net + Packets(p, step.sent))
  }

  /** The system after chain `p`'s service pallet took `step`. */
  function AfterService(sys: System, p: ParaId, step: S.Step): System
    requires p in sys.chains
  {
    System(sys.chains[p := AfterS(sys.chains[p], step).chain], sys.net + Packets(p, step.sent))
  }

  /** Without a new order, the tokens stay; the live order stays or goes. */
  lemma ClientEndKeepsToken(sys: System, c: ParaId, step: X.Step, d: AccountId, dead: bool)
    requires c in sys.chains && TokenInv(sys, c, d, dead)
    requires d in step.state.orders ==>
      d in sys.chains[c].x.orders && step.state.orders[d] == sys.chains[c].x.orders[d]
    requires step.sent.Some? ==> step.sent.value.msg.NewOrder? && step.sent.value.msg.order.device != d
    requires X.IsReady(step.state, d) ==> X.IsReady(sys.chains[c].x, d) || Quiescent(sys, c, d, dead)
    ensures TokenInv(AfterClient(sys, c, step), c, d, dead)
  {
    var sys' := AfterClient(sys, c, step);
    assert forall e :: IsToken(sys', e, c, d, dead) ==> IsToken(sys, e, c, d, dead);
    assert forall e :: IsToken(sys', e, c, d, dead) ==> sys'.net[e] == sys.net[e];
    assert forall e :: IsToken(sys', e, c, d, dead) ==> (e in sys'.net <==> e in sys.net);
    assert forall q :: Held(sys', q, c, d) == Held(sys, q, c, d);
  }

  /** A new order goes out alone. */
  lemma ClientPlacementKeepsToken(sys: System, c: ParaId, step: X.Step, d: AccountId, dead: bool)
    requires c in sys.chains && TokenInv(sys, c, d, dead)
    requires X.IsReady(sys.chains[c].x, d) && !X.IsReady(step.state, d) && d in step.state.orders
    requires step.sent.Some?
    requires var order := step.state.orders[d]; step.sent.value.msg == NewOrder(order.client, order.Convert(d))
    ensures TokenInv(AfterClient(sys, c, step), c, d, dead)
  {
    var sys' := AfterClient(sys, c, step);
    var e := Envelope(c, step.sent.value.dest, step.sent.value.msg);
    assert sys'.net == sys.net + multiset{e};
    assert forall e' :: IsToken(sys', e', c, d, dead) ==> IsToken(sys, e', c, d, dead);
    assert forall e' :: e' in sys'.net && IsToken(sys', e', c, d, dead) ==> e' == e && sys.net[e] == 0;
    assert forall q :: Held(sys', q, c, d) == Held(sys, q, c, d);
  }

  lemma ClientSendsOrders(c: Chain, call: Call)
    requires call.OfClientPallet()
    ensures XStep(c, call).sent.Some? ==> XStep(c, call).sent.value.msg.NewOrder?
  {
    hide Reserve, Unreserve, RepatriateReserved;
  }

  lemma ClientCallKeepsToken(sys: System, p: ParaId, call: Call, c: ParaId, d: AccountId, dead: bool)
    requires p in sys.chains && c in sys.chains && TokenInv(sys, c, d, dead)
    requires XE.Engaged(sys.chains[c].x) && call.OfClientPallet()
    requires p == c && call.XRegister? && call.onoff && call.id == d && d !in sys.chains[c].x.orders ==>
      Quiescent(sys, c, d, dead)
    requires p == c && call.XHandle? && call.msg.Terminal() && call.msg.device == d ==> Quiescent(sys, c, d, dead)
    ensures TokenInv(Act(sys, p, call), c, d, dead)
  {
    hide XStep, TokenInv, XE.Engaged;
    var step := XStep(sys.chains[p], call);
    var sys' := Act(sys, p, call);
    assert sys' == AfterClient(sys, p, step);
    if p != c {
      ClientSendsOrders(sys.chains[p], call);
      OtherClientKeepsToken(sys, p, step, c, d, dead);
    } else {
      ClientShape(sys.chains[p], call, d);
      if call.XOrder? && step.result.Ok? && call.order.device == d {
        ClientPlacementKeepsToken(sys, c, step, d, dead);
      } else {
        ClientEndKeepsToken(sys, c, step, d, dead);
      }
    }
  }

  /** Another chain's client pallet sends nothing but its own orders. */
  lemma OtherClientKeepsToken(sys: System, p: ParaId, step: X.Step, c: ParaId, d: AccountId, dead: bool)
    requires p in sys.chains && c in sys.chains && p != c && TokenInv(sys, c, d, dead)
    requires step.sent.Some? ==> step.sent.value.msg.NewOrder?
    ensures TokenInv(AfterClient(sys, p, step), c, d, dead)
  {
    hide TokenInv;
    var sys' := AfterClient(sys, p, step);
    assert forall e :: IsToken(sys', e, c, d, dead) ==> IsToken(sys, e, c, d, dead);
    assert forall e :: IsToken(sys', e, c, d, dead) ==> sys'.net[e] == sys.net[e];
    FewerTokensKeep(sys, sys', c, d, dead);
  }

  /** A service step changes no token but by what it sends, and holds nothing new elsewhere. */
  lemma ServiceStepTokens(sys: System, p: ParaId, step: S.Step, c: ParaId, d: AccountId, dead: bool)
    requires p in sys.chains && c in sys.chains
    ensures var sys' := AfterService(sys, p, step);
      && (forall e :: IsToken(sys', e, c, d, dead) == IsToken(sys, e, c, d, dead))
      && (forall q :: q != p ==> Held(sys', q, c, d) == Held(sys, q, c, d))
      && (forall q :: q != p && Held(sys, q, c, d) ==> sys'.chains[q].s.orders[d] == sys.chains[q].s.orders[d])
      && sys'.chains[c].x == sys.chains[c].x
      && (step.sent.None? ==> sys'.net == sys.net)
      && (step.sent.Some? ==> sys'.net == sys.net + multiset{Envelope(p, step.sent.value.dest, step.sent.value.msg)})
  {
  }

  /** From nothing outstanding to one held order that matches. */
  lemma HeldAlone(sys: System, p: ParaId, c: ParaId, d: AccountId, dead: bool)
    requires c in sys.chains && !X.IsReady(sys.chains[c].x, d)
    requires forall e :: e in sys.net ==> !IsToken(sys, e, c, d, dead)
    requires forall q :: Held(sys, q, c, d) ==> q == p
    requires Held(sys, p, c, d) && d in sys.chains[c].x.orders ==>
      sys.chains[p].s.orders[d] == sys.chains[c].x.orders[d].(paraid := c)
    ensures TokenInv(sys, c, d, dead)
  {
  }

  lemma TakeKeepsToken(
    sys: System, p: ParaId, step: S.Step, device: AccountId, offered: Order, c: ParaId, d: AccountId, dead: bool)
    requires p in sys.chains && c in sys.chains && TokenInv(sys, c, d, dead)
    requires Takes(p, sys.chains[p].ledger, sys.chains[p].s, step, device, offered)
    requires offered.paraid == c != p && device == d ==>
      && Quiescent(sys, c, d, dead) && !X.IsReady(sys.chains[c].x, d)
      && (d in sys.chains[c].x.orders ==> offered == sys.chains[c].x.orders[d].(paraid := c))
    ensures TokenInv(AfterService(sys, p, step), c, d, dead)
  {
    hide TokenInv, CanArrive;
    var sys' := AfterService(sys, p, step);
    ServiceStepTokens(sys, p, step, c, d, dead);
    if offered.paraid == c != p && device == d {
      HeldAlone(sys', p, c, d, dead);
    } else {
      FewerTokensKeep(sys, sys', c, d, dead);
    }
  }

  /** From one held order to the one reply that ends it. */
  lemma ReplyAlone(sys: System, sys': System, p: ParaId, e: Envelope, c: ParaId, d: AccountId, dead: bool)
    requires c in sys.chains && TokenInv(sys, c, d, dead) && Held(sys, p, c, d)
    requires c in sys'.chains && sys'.chains[c].x == sys.chains[c].x && sys'.net == sys.net + multiset{e}
    requires forall e' :: IsToken(sys', e', c, d, dead) == IsToken(sys, e', c, d, dead)
    requires forall q :: !Held(sys', q, c, d)
    requires e.to == c && e.msg.Terminal() && e.msg.device == d && e.msg.client == sys.chains[p].s.orders[d].client
    ensures TokenInv(sys', c, d, dead)
  {
    assert IsToken(sys, e, c, d, dead) && e !in sys.net;
  }

  lemma EndKeepsToken(sys: System, p: ParaId, step: S.Step, device: AccountId, c: ParaId, d: AccountId, dead: bool)
    requires p in sys.chains && c in sys.chains && TokenInv(sys, c, d, dead)
    requires Ends(p, sys.chains[p].ledger, sys.chains[p].s, step, device)
    ensures TokenInv(AfterService(sys, p, step), c, d, dead)
  {
    hide CanArrive, Quiescent;
    var sys' := AfterService(sys, p, step);
    ServiceStepTokens(sys, p, step, c, d, dead);
    if device == d && Held(sys, p, c, d) {
      assert forall q :: Held(sys, q, c, d) ==> q == p;
      hide TokenInv, Single;
      ReplyAlone(sys, sys', p, Envelope(p, step.sent.value.dest, step.sent.value.msg), c, d, dead);
    } else {
      hide TokenInv, Single;
      FewerTokensKeep(sys, sys', c, d, dead);
    }
  }

  lemma OtherServiceKeepsToken(sys: System, p: ParaId, step: S.Step, c: ParaId, d: AccountId, dead: bool)
    requires p in sys.chains && c in sys.chains && TokenInv(sys, c, d, dead)
    requires step.state.orders == sys.chains[p].s.orders
    requires step.sent.Some? ==> step.sent.value.msg.OrderAccept?
    ensures TokenInv(AfterService(sys, p, step), c, d, dead)
  {
    hide TokenInv;
    ServiceStepTokens(sys, p, step, c, d, dead);
    FewerTokensKeep(sys, AfterService(sys, p, step), c, d, dead);
  }

  lemma ServiceCallKeepsToken(sys: System, p: ParaId, call: Call, c: ParaId, d: AccountId, dead: bool)
    requires p in sys.chains && c in sys.chains && TokenInv(sys, c, d, dead)
    requires call.OfServicePallet()
    requires (call.SHandle? && call.msg.NewOrder? && call.sender == c != p && call.msg.order.device == d
              && sys.chains[p].now < call.msg.order.until) ==>
      && Quiescent(sys, c, d, dead) && !X.IsReady(sys.chains[c].x, d)
      && (d in sys.chains[c].x.orders ==>
        var order := sys.chains[c].x.orders[d];
        call.msg == NewOrder(order.client, order.Convert(d)))
    ensures TokenInv(Act(sys, p, call), c, d, dead)
  {
    hide SStep, TokenInv;
    var chain := sys.chains[p];
    var step, device, offered := SStep(p, chain, call), DeviceOf(call), Offered(p, call);
    ServiceShape(p, chain, call);
    assert Act(sys, p, call) == AfterService(sys, p, step);
    if offered.Some? && chain.now < offered.value.until
      && Takes(p, chain.ledger, chain.s, step, device, offered.value) {
      TakeKeepsToken(sys, p, step, device, offered.value, c, d, dead);
    } else if Ends(p, chain.ledger, chain.s, step, device) {
      EndKeepsToken(sys, p, step, device, c, d, dead);
    } else {
      assert step.state.orders == chain.s.orders;
      OtherServiceKeepsToken(sys, p, step, c, d, dead);
    }
  }
}
