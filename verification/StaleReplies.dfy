/** Why devices must wait: what becomes possible when a device registers as ready while
    something of its old order can still come back. */
module StaleReplies {
  import opened Common
  import opened Balances
  import opened Chains
  import opened Network
  import opened Runs
  import ClientCalls
  import Escrow
  import Guarantees
  import X = XChange
  import S = XChangeService
  import XE = XChangeEscrow
  import SE = XChangeServiceEscrow

  /** `a` is not the client of anything outstanding of the order of `d` placed by `c`. */
  ghost predicate Stranger(sys: System, c: ParaId, d: AccountId, a: AccountId) {
    && (forall e :: e in sys.net && IsToken(sys, e, c, d, false) ==> e.msg.client != a)
    && (forall q :: Held(sys, q, c, d) ==> sys.chains[q].s.orders[d].client != a)
  }

  /** What is outstanding has become a reply in flight. */
  predicate IsReply(e: Envelope, c: ParaId, d: AccountId) {
    e.to == c && e.msg.Terminal() && e.msg.device == d
  }

  ghost predicate IsElsewhere(ts: seq<Transition>, c: ParaId) {
    forall i {:trigger ts[i]} :: 0 <= i < |ts| ==> !Acts(ts[i], c)
  }

  /** A segment from `sys` in which chain `c` does nothing. */
  ghost predicate AwayFrom(c: ParaId, sys: System, states: seq<System>, ts: seq<Transition>) {
    IsSegment(states, ts) && states[0] == sys && IsElsewhere(ts, c)
  }

  lemma StayAway(c: ParaId, sys: System, states: seq<System>, ts: seq<Transition>, t: Transition)
    requires AwayFrom(c, sys, states, ts) && Enabled(states[|ts|], t) && !Acts(t, c)
    ensures AwayFrom(c, sys, states + [Next(states[|ts|], t)], ts + [t])
  {
    hide Next, Enabled, Acts;
    ExtendSegment(states, ts, t);
  }

  /** Only chain `q` has changed, its clock has not, and nothing has left the network. */
  ghost predicate OnlyAt(q: ParaId, sys: System, sys': System) {
    && q in sys.chains && sys'.chains.Keys == sys.chains.Keys
    && (forall p :: p in sys.chains && p != q ==> sys'.chains[p] == sys.chains[p])
    && sys'.chains[q].now == sys.chains[q].now
    && (forall e :: e in sys.net ==> e in sys'.net)
  }

  // What is outstanding can come back

  /** The device of a held order can reject it, and the reply is on its way. */
  lemma RejectionReplies(sys: System, q: ParaId, c: ParaId, d: AccountId)
    requires Held(sys, q, c, d) && d in sys.chains[q].s.devices
    requires sys.chains[q].s.devices[d].state == Busy || sys.chains[q].s.devices[d].state == DeviceState.Accepted
    ensures var sys' := Next(sys, Local(q, SAccept(d, true, false)));
      && OnlyAt(q, sys, sys')
      && Envelope(q, c, OrderReject(sys.chains[q].s.orders[d].client, d, false)) in sys'.net
  {
    hide Unreserve, RepatriateReserved;
  }

  lemma RejectionFrees(sys: System, q: ParaId, d: AccountId)
    requires q in sys.chains && SE.Engaged(sys.chains[q].s) && d in sys.chains[q].s.orders
    ensures var sys' := Next(sys, Local(q, SAccept(d, true, true)));
      OnlyAt(q, sys, sys') && d !in sys'.chains[q].s.orders
  {
    hide Unreserve, RepatriateReserved;
  }

  lemma RegistrationReadies(sys: System, q: ParaId, d: AccountId)
    requires q in sys.chains && d !in sys.chains[q].s.orders
    ensures var sys' := Next(sys, Local(q, SRegister(d, 0, 0, true)));
      && OnlyAt(q, sys, sys') && d !in sys'.chains[q].s.orders
      && S.IsReady(sys'.chains[q].s, d) && sys'.chains[q].s.devices[d].wcd == 0
  {
  }

  /** The owner of a device can make it ready for anything: end its order if it has one, and
      register it with no working time. */
  lemma DeviceCanBeFreed(sys: System, q: ParaId, c: ParaId, d: AccountId)
    returns (states: seq<System>, ts: seq<Transition>)
    requires q in sys.chains && q != c && SE.Engaged(sys.chains[q].s)
    ensures AwayFrom(c, sys, states, ts) && OnlyAt(q, sys, states[|ts|])
    ensures var s := states[|ts|].chains[q].s;
      d !in s.orders && S.IsReady(s, d) && s.devices[d].wcd == 0
  {
    states, ts := [sys], [];
    if d in sys.chains[q].s.orders {
      var t := Local(q, SAccept(d, true, true));
      RejectionFrees(sys, q, d);
      hide Next;
      StayAway(c, sys, states, ts, t);
      states, ts := states + [Next(sys, t)], ts + [t];
    }
    hide Next;
    var mid, t := states[|ts|], Local(q, SRegister(d, 0, 0, true));
    RegistrationReadies(mid, q, d);
    StayAway(c, sys, states, ts, t);
    states, ts := states + [Next(mid, t)], ts + [t];
  }

  /** A ready device without working time takes the order that arrives in time. */
  lemma ArrivalIsTaken(sys: System, e: Envelope, d: AccountId)
    requires e in sys.net && e.msg.NewOrder? && e.msg.order.device == d && CanArrive(sys, e)
    requires var s := sys.chains[e.to].s;
      d !in s.orders && S.IsReady(s, d) && s.devices[d].wcd == 0
    ensures var t := Deliver(e, true, Some(Busy));
      && Enabled(sys, t)
      && var sys', q := Next(sys, t), e.to;
      && sys'.chains.Keys == sys.chains.Keys && Held(sys', q, e.from, d)
      && (forall p :: p in sys.chains && p != q ==> sys'.chains[p] == sys.chains[p])
      && sys'.chains[q].s.orders[d].client == e.msg.client
      && d in sys'.chains[q].s.devices && sys'.chains[q].s.devices[d].state == Busy
  {
    Guarantees.ServicePlacementExact(e.to, sys.chains[e.to].ledger, sys.chains[e.to].s, sys.chains[e.to].now,
      e.msg.order.Convert(e.msg.client).(paraid := e.from), d, Some(Busy));
    hide S.ReceiveStep;
  }

  /** An order that can still arrive can be taken and rejected, so that a reply comes back. */
  lemma ArrivalCanReply(sys: System, c: ParaId, d: AccountId, e: Envelope)
    returns (states: seq<System>, ts: seq<Transition>, reply: Envelope)
    requires c in sys.chains && e in sys.net && e.msg.NewOrder? && e.from == c && e.msg.order.device == d
    requires CanArrive(sys, e) && SE.Engaged(sys.chains[e.to].s)
    ensures AwayFrom(c, sys, states, ts) && c in states[|ts|].chains && states[|ts|].chains[c] == sys.chains[c]
    ensures reply in states[|ts|].net && IsReply(reply, c, d) && reply.msg.client == e.msg.client
  {
    var q := e.to;
    states, ts := DeviceCanBeFreed(sys, q, c, d);
    var free, arrive, reject := states[|ts|], Deliver(e, true, Some(Busy)), Local(q, SAccept(d, true, false));
    ArrivalIsTaken(free, e, d);
    var held := Next(free, arrive);
    RejectionReplies(held, q, c, d);
    hide Next;
    StayAway(c, sys, states, ts, arrive);
    states, ts := states + [held], ts + [arrive];
    StayAway(c, sys, states, ts, reject);
    states, ts := states + [Next(held, reject)], ts + [reject];
    reply := Envelope(q, c, OrderReject(e.msg.client, d, false));
  }

  /** Whatever is outstanding can become a reply in flight while chain `c` does nothing. */
  lemma OutstandingCanReply(sys: System, c: ParaId, d: AccountId)
    returns (states: seq<System>, ts: seq<Transition>, reply: Envelope)
    requires c in sys.chains && (forall p :: p in sys.chains ==> SE.Engaged(sys.chains[p].s))
    requires !Quiescent(sys, c, d, false)
    ensures AwayFrom(c, sys, states, ts) && c in states[|ts|].chains && states[|ts|].chains[c] == sys.chains[c]
    ensures reply in states[|ts|].net && IsReply(reply, c, d)
    ensures forall a :: Stranger(sys, c, d, a) ==> reply.msg.client != a
  {
    states, ts := [sys], [];
    if q :| Held(sys, q, c, d) {
      assert SE.Engaged(sys.chains[q].s);
      var reject := Local(q, SAccept(d, true, false));
      RejectionReplies(sys, q, c, d);
      hide Next;
      StayAway(c, sys, states, ts, reject);
      states, ts := states + [Next(sys, reject)], ts + [reject];
      reply := Envelope(q, c, OrderReject(sys.chains[q].s.orders[d].client, d, false));
    } else {
      var e :| e in sys.net && IsToken(sys, e, c, d, false);
      if e.msg.NewOrder? {
        states, ts, reply := ArrivalCanReply(sys, c, d, e);
      } else {
        reply := e;
      }
    }
  }

  // What a stale reply does

  /** The client-side device `d` is ready and idle; `client` can pay `fee`, and `d` its penalty. */
  predicate CanOrder(c: Chain, d: AccountId, client: AccountId, fee: Balance) {
    && d !in c.x.orders && X.IsReady(c.x, d) && client != d
    && fee <= Free(c.ledger, client) && c.x.devices[d].penalty <= Free(c.ledger, d)
  }

  /** `client` has `fee` reserved on chain `c'` more than on `c`, and neither chain has an order
      of `d`, nor do their open deals differ. */
  ghost predicate FeeStranded(p: ParaId, c: Chain, c': Chain, d: AccountId, client: AccountId, fee: Balance) {
    && d !in c.x.orders && d !in c'.x.orders
    && XE.Deals(c'.x) == XE.Deals(c.x) && SE.Deals(p, c'.s) == SE.Deals(p, c.s)
    && Free(c'.ledger, client) == Free(c.ledger, client) - fee
    && Reserved(c'.ledger, client) == Reserved(c.ledger, client) + fee
    && Slack(p, c', client) == Slack(p, c, client) + fee
    && X.CancelStep(c'.ledger, c'.x, c'.now, client, d).result == Err(NoOrder)
  }

  /** The order a client places with a deadline the device must accept. */
  function NextOrder(c: Chain, d: AccountId, fee: Balance): OrderBase
    requires d in c.x.devices
  {
    OrderBase(c.now + c.x.devices[d].wcd + 1, 0, fee, d)
  }

  /** `who` has less reserved on chain `c'` than on `c`, by the fee or all of it, and his open deals
      need as much as before. */
  ghost predicate BackingTaken(p: ParaId, c: Chain, c': Chain, who: AccountId, fee: Balance) {
    var taken := if fee < Reserved(c.ledger, who) then fee else Reserved(c.ledger, who);
    && Reserved(c'.ledger, who) == Reserved(c.ledger, who) - taken
    && Slack(p, c', who) == Slack(p, c, who) - taken && c'.s == c.s
  }

  lemma StaleReplyTakesOrder(p: ParaId, c: Chain, d: AccountId, client: AccountId, fee: Balance, msg: XcmpMessage)
    requires CanOrder(c, d, client, fee) && msg.Terminal() && msg.device == d && msg.client != client
    ensures var placed := Dispatch(p, c, XOrder(client, NextOrder(c, d, fee)));
      && placed.result == Ok
      && FeeStranded(p, c, Dispatch(p, placed.chain, XHandle(msg)).chain, d, client, fee)
  {
    var order := NextOrder(c, d, fee);
    Guarantees.ClientPlacementExact(c.ledger, c.x, c.now, client, order);
    var placed := Dispatch(p, c, XOrder(client, order)).chain;
    var after := Dispatch(p, placed, XHandle(msg)).chain;
    assert XE.Deals(after.x) == XE.Deals(c.x);
  }

  lemma StaleReplyTakesBacking(p: ParaId, c: Chain, d: AccountId, client: AccountId, fee: Balance, msg: XcmpMessage)
    requires CanOrder(c, d, client, fee) && msg.Terminal() && msg.device == d && msg.client != client
    requires msg.client != d
    ensures var placed := Dispatch(p, c, XOrder(client, NextOrder(c, d, fee)));
      BackingTaken(p, c, Dispatch(p, placed.chain, XHandle(msg)).chain, msg.client, fee)
  {
    var placed := Dispatch(p, c, XOrder(client, NextOrder(c, d, fee))).chain;
    StaleReplyTakesOrder(p, c, d, client, fee, msg);
    PlacementSparesOthers(p, c, d, client, fee, msg.client);
    hide Dispatch, XE.Deals, SE.Deals;
    ReplyDraws(p, placed, msg);
  }

  lemma PlacementSparesOthers(
    p: ParaId, c: Chain, d: AccountId, client: AccountId, fee: Balance, who: AccountId)
    requires CanOrder(c, d, client, fee) && who != client && who != d
    ensures var placed := Dispatch(p, c, XOrder(client, NextOrder(c, d, fee))).chain;
      && placed.s == c.s && Reserved(placed.ledger, who) == Reserved(c.ledger, who)
      && d in placed.x.orders && d in placed.x.devices && placed.x.orders[d].fee == fee
  {
    var order := NextOrder(c, d, fee);
    ClientCalls.OrderAnswers(p, c, client, order);
    ClientCalls.OrderDoes(p, c, client, order);
    hide Dispatch;
  }

  /** What `who` and `d` lose of their reserves when a reply that names `who` ends the deal of `d`. */
  function Paid(l: Ledger, who: AccountId, deal: Escrow.Deal): nat {
    if deal.fee < Reserved(l, who) then deal.fee else Reserved(l, who)
  }

  function Forfeit(l: Ledger, who: AccountId, deal: Escrow.Deal): nat {
    var left := Reserved(l, deal.device) - if deal.device == who then Paid(l, who, deal) else 0;
    if deal.penalty < left then deal.penalty else left
  }

  /** What the end of the deal frees of the needs of `a`, less what `a` loses. */
  function Relief(l: Ledger, who: AccountId, deal: Escrow.Deal, a: AccountId): int {
    Escrow.Share(deal, a)
      - (if a == who then Paid(l, who, deal) else 0) - (if a == deal.device then Forfeit(l, who, deal) else 0)
  }

  /** Only whoever is named can lose more than that, and not if he is the client. */
  lemma OnlyNamedLoses(l: Ledger, who: AccountId, deal: Escrow.Deal)
    requires forall a :: Escrow.Share(deal, a) <= Reserved(l, a)
    ensures forall a :: a != who || a == deal.client ==> Relief(l, who, deal, a) >= 0
    ensures who != deal.client ==>
      Relief(l, who, deal, who) ==
        if who != deal.device then 0 - Paid(l, who, deal)
        else deal.penalty - Paid(l, who, deal) - Forfeit(l, who, deal)
  {
    assert Escrow.Share(deal, deal.client) <= Reserved(l, deal.client);
    assert Escrow.Share(deal, deal.device) <= Reserved(l, deal.device);
  }

  lemma ReplyChangesSlack(p: ParaId, c: Chain, msg: XcmpMessage, a: AccountId)
    requires Engaged(c) && msg.Terminal() && msg.device in c.x.orders
    ensures msg.device in c.x.devices && Engaged(Dispatch(p, c, XHandle(msg)).chain)
    ensures Slack(p, Dispatch(p, c, XHandle(msg)).chain, a)
      == Slack(p, c, a) + Relief(c.ledger, msg.client, XE.DealOf(c.x, msg.device), a)
  {
    ReplyDraws(p, c, msg);
    DispatchRecords(p, c, XHandle(msg));
    ReplyIsSettlement(p, c, msg);
    hide Dispatch, MoveOf;
    Escrow.RecordsTrackLocked(
      c.now, XE.Deals(c.x), MoveOf(p, c, XHandle(msg)).act, XE.Deals(Dispatch(p, c, XHandle(msg)).chain.x), a);
  }

  /** What any reply that meets an order does to the backing of the chain: it stays sound if and
      only if the money drawn from whoever is named backs none of his other open deals. */
  lemma ReplyKeepsBackingIff(p: ParaId, c: Chain, msg: XcmpMessage)
    requires Sound(p, c) && msg.Terminal() && msg.device in c.x.orders
    ensures msg.device in c.x.devices
    ensures var l, who, deal := c.ledger, msg.client, XE.DealOf(c.x, msg.device);
      Sound(p, Dispatch(p, c, XHandle(msg)).chain) <==>
        || who == deal.client
        || (if who != deal.device then Paid(l, who, deal) <= Slack(p, c, who)
            else Paid(l, who, deal) + Forfeit(l, who, deal) <= Slack(p, c, who) + deal.penalty)
  {
    BackedCovers(p, c);
    Escrow.CoversOne(c.ledger, XE.Deals(c.x), msg.device);
    var deal := XE.Deals(c.x)[msg.device];
    hide Dispatch, Slack, Escrow.Covers, Relief, Paid, Forfeit, XE.Engaged, SE.Engaged, XE.Deals;
    OnlyNamedLoses(c.ledger, msg.client, deal);
    var c' := Dispatch(p, c, XHandle(msg)).chain;
    forall a
      ensures Slack(p, c, a) >= 0 && Engaged(c')
      ensures Slack(p, c', a) == Slack(p, c, a) + Relief(c.ledger, msg.client, deal, a)
    {
      ReplyChangesSlack(p, c, msg, a);
    }
    if Sound(p, c') {
      assert Slack(p, c', msg.client) >= 0;
    }
  }

  lemma ReplyIsSettlement(p: ParaId, c: Chain, msg: XcmpMessage)
    requires msg.Terminal() && msg.device in c.x.orders && msg.device in c.x.devices
    ensures MoveOf(p, c, XHandle(msg)).OnClient?
    ensures MoveOf(p, c, XHandle(msg)).act.Settle?
    ensures MoveOf(p, c, XHandle(msg)).act.deal == XE.DealOf(c.x, msg.device)
  {
    hide Unreserve, RepatriateReserved;
  }

  ghost predicate ReservesFall(l: Ledger, who: AccountId, deal: Escrow.Deal, l': Ledger) {
    forall a ::
      Reserved(l', a) == Reserved(l, a)
        - (if a == who then Paid(l, who, deal) else 0) - (if a == deal.device then Forfeit(l, who, deal) else 0)
  }

  lemma DrawingTakes(
    l: Ledger, who: AccountId, payee: AccountId, deal: Escrow.Deal, winner: AccountId, l': Ledger)
    requires Draws(l, who, payee, deal.fee, deal.device, winner, deal.penalty, l')
    ensures ReservesFall(l, who, deal, l')
  {
  }

  lemma ReplyDraws(p: ParaId, c: Chain, msg: XcmpMessage)
    requires msg.Terminal() && msg.device in c.x.orders && msg.device in c.x.devices
    ensures var effect := Dispatch(p, c, XHandle(msg));
      && ReservesFall(c.ledger, msg.client, XE.DealOf(c.x, msg.device), effect.chain.ledger)
      && effect.chain.s == c.s
  {
    var c', d, deal := Dispatch(p, c, XHandle(msg)).chain, msg.device, XE.DealOf(c.x, msg.device);
    ClientCalls.ReplyAnswers(p, c, msg);
    hide Dispatch, Draws, ReservesFall, ClientCalls.Becomes;
    if msg.OrderDone? {
      ClientCalls.DoneDoes(p, c, msg.client, d, msg.onoff);
      DrawingTakes(c.ledger, msg.client, d, deal, if c.now < deal.until then d else msg.client, c'.ledger);
    } else {
      ClientCalls.RejectDoes(p, c, msg.client, d, msg.onoff);
      DrawingTakes(c.ledger, msg.client, msg.client, deal, if c.now < deal.until then d else deal.client, c'.ledger);
    }
  }

  /** The two steps that take a new order away: it is placed, and the old reply arrives. */
  lemma NewOrderIsLost(sys: System, c: ParaId, d: AccountId, client: AccountId, fee: Balance, reply: Envelope)
    requires c in sys.chains && CanOrder(sys.chains[c], d, client, fee)
    requires reply in sys.net && IsReply(reply, c, d) && reply.msg.client != client
    ensures var place, deliver :=
        Local(c, XOrder(client, NextOrder(sys.chains[c], d, fee))), Deliver(reply, false, None);
      && Enabled(sys, place) && Enabled(Next(sys, place), deliver)
      && var last := Next(Next(sys, place), deliver);
      && c in last.chains && FeeStranded(c, sys.chains[c], last.chains[c], d, client, fee)
      && (reply.msg.client != d ==> BackingTaken(c, sys.chains[c], last.chains[c], reply.msg.client, fee))
  {
    var place, deliver :=
      Local(c, XOrder(client, NextOrder(sys.chains[c], d, fee))), Deliver(reply, false, None);
    StaleReplyTakesOrder(c, sys.chains[c], d, client, fee, reply.msg);
    if reply.msg.client != d {
      StaleReplyTakesBacking(c, sys.chains[c], d, client, fee, reply.msg);
    }
    hide Dispatch, FeeStranded, BackingTaken;
    assert Enabled(Next(sys, place), deliver);
  }

  /** A ready registration lets another client order. */
  lemma RegistrationOpens(sys: System, c: ParaId, register: Call, client: AccountId, fee: Balance)
    requires c in sys.chains && register.XRegister? && register.onoff && register.id !in sys.chains[c].x.orders
    requires client != register.id && fee <= Free(sys.chains[c].ledger, client)
    requires register.penalty <= Free(sys.chains[c].ledger, register.id)
    ensures Enabled(sys, Local(c, register))
    ensures var sys' := Next(sys, Local(c, register));
      && sys'.net == sys.net && sys'.chains.Keys == sys.chains.Keys
      && (forall p :: p in sys.chains && p != c ==> sys'.chains[p] == sys.chains[p])
      && sys'.chains[c].s == sys.chains[c].s && sys'.chains[c].now == sys.chains[c].now
      && sys'.chains[c].ledger == sys.chains[c].ledger
      && XE.Deals(sys'.chains[c].x) == XE.Deals(sys.chains[c].x)
      && CanOrder(sys'.chains[c], register.id, client, fee)
  {
  }

  lemma ThreeSteps(sys: System, t0: Transition, t1: Transition, t2: Transition)
    requires Enabled(sys, t0) && Enabled(Next(sys, t0), t1) && Enabled(Next(Next(sys, t0), t1), t2)
    ensures var mid := Next(sys, t0);
      IsSegment([sys, mid, Next(mid, t1), Next(Next(mid, t1), t2)], [t0, t1, t2])
  {
    hide Enabled, Next;
  }

  /** A reply still in flight, with its order gone: once the device registers as ready, an
      order of another client is placed and lost to the reply, be it done or reject, and the
      fee stays reserved with no order behind it. */
  lemma StaleReplyStrandsFee(
    sys: System, c: ParaId, register: Call, client: AccountId, fee: Balance, reply: Envelope)
    returns (states: seq<System>, ts: seq<Transition>)
    requires c in sys.chains && register.XRegister? && register.onoff && register.id !in sys.chains[c].x.orders
    requires reply in sys.net && IsReply(reply, c, register.id)
    requires reply.msg.client != client && client != register.id
    requires 0 < fee <= Free(sys.chains[c].ledger, client)
    requires register.penalty <= Free(sys.chains[c].ledger, register.id)
    ensures IsSegment(states, ts) && states[0] == sys && |ts| == 3
    ensures ts[0] == Local(c, register) && ts[1].Local? && ts[1].p == c && ts[1].call.XOrder?
    ensures ts[1].call.who == client && ts[1].call.order.fee == fee && ts[2] == Deliver(reply, false, None)
    ensures c in states[1].chains && c in states[3].chains
    ensures FeeStranded(c, states[1].chains[c], states[3].chains[c], register.id, client, fee)
    ensures reply.msg.client != register.id ==>
      BackingTaken(c, states[1].chains[c], states[3].chains[c], reply.msg.client, fee)
    ensures states[1].chains[c].ledger == sys.chains[c].ledger && states[1].chains[c].s == sys.chains[c].s
  {
    var t := Local(c, register);
    var ready := Next(sys, t);
    RegistrationOpens(sys, c, register, client, fee);
    NewOrderIsLost(ready, c, register.id, client, fee, reply);
    var place := Local(c, XOrder(client, NextOrder(ready.chains[c], register.id, fee)));
    var deliver := Deliver(reply, false, None);
    var placed := Next(ready, place);
    var last := Next(placed, deliver);
    hide Next, Enabled, FeeStranded, BackingTaken, CanOrder;
    ThreeSteps(sys, t, place, deliver);
    states, ts := [sys, ready, placed, last], [t, place, deliver];
  }
}
