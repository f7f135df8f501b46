/** Runs from the genesis that show the findings: a penalty stranded by a self-order, a done in
    time that is settled as late, and a fee stranded by a stale reply. */
module Witnesses {
  import opened Common
  import opened Balances
  import opened Chains
  import opened Network
  import opened Runs
  import Escrow
  import Guarantees
  import ServiceCalls
  import StaleReplies
  import X = XChange
  import S = XChangeService
  import XE = XChangeEscrow
  import SE = XChangeServiceEscrow

  lemma StartRun(sys: System, p: ParaId)
    requires Genesis(sys) && p in sys.chains
    ensures IsRun([sys], [], p)
  {
  }

  lemma ExtendRun(states: seq<System>, ts: seq<Transition>, p: ParaId, t: Transition)
    requires IsRun(states, ts, p) && Enabled(states[|ts|], t) && Quiet(states[|ts|], t, p, false)
    ensures IsRun(states + [Next(states[|ts|], t)], ts + [t], p)
  {
    hide Enabled, Next, Quiet, Genesis;
    ExtendSegment(states, ts, t);
  }

  /** A client on one chain and a device on another, and the terms of an order between them. */
  datatype Scene = Scene(
    home: ParaId, away: ParaId, client: AccountId, device: AccountId, fee: Balance, penalty: Balance, until: Moment)
  {
    const offer := XRegister(device, away, penalty, 0, true)
    const serve := SRegister(device, penalty, 0, true)
    const order := OrderBase(until, 0, fee, device)
    const place := XOrder(client, order)
    const request := Envelope(home, away, NewOrder(client, order))
    const accept := Envelope(away, home, OrderAccept(client, device))
    const reply := Envelope(away, home, OrderDone(client, device, true))

    /** Nothing has happened yet, there is time, and both parties can pay. */
    ghost predicate Opens(sys: System) {
      && Genesis(sys) && home in sys.chains && away in sys.chains && home != away && client != device
      && sys.chains[home].now < until && sys.chains[away].now < until
      && fee <= Free(sys.chains[home].ledger, client) && penalty <= Free(sys.chains[home].ledger, device)
    }

    /** The home chain `c` after the order was placed there. */
    ghost predicate Waits(before: Chain, c: Chain) {
      && c.now == before.now && c.s == before.s
      && c.x.orders == map[device := order.Convert(client)]
      && c.x.devices == map[device := X.DeviceProfile(penalty, 0, away, Busy)]
      && Escrow.SetAside(before.ledger, Escrow.Deal(client, device, fee, penalty, until, 0), c.ledger)
    }
  }

  lemma Placing(sys: System, k: Scene)
    requires k.Opens(sys)
    ensures var offered := Dispatch(k.home, sys.chains[k.home], k.offer);
      var placed := Dispatch(k.home, offered.chain, k.place);
      && offered.sent == None && placed.sent == Some(Sent(k.away, k.request.msg))
      && k.Waits(sys.chains[k.home], placed.chain)
  {
  }

  lemma Serving(sys: System, k: Scene)
    requires k.Opens(sys)
    ensures var ready := Dispatch(k.away, sys.chains[k.away], k.serve);
      var taken := Dispatch(k.away, ready.chain, SHandle(k.home, k.request.msg, Some(DeviceState.Accepted)));
      var done := Dispatch(k.away, taken.chain, SDone(k.device, true));
      && ready.sent == None && taken.sent == Some(Sent(k.home, k.accept.msg))
      && done.result == Ok && done.sent == Some(Sent(k.home, k.reply.msg))
      && taken.chain.now == done.chain.now == sys.chains[k.away].now
      && done.chain.s.orders == map[]
  {
  }

  /** The work is done and reported before the deadline on either clock, and the report is still
      in flight. */
  ghost predicate DoneInTime(sys: System, k: Scene, states: seq<System>, ts: seq<Transition>) {
    && IsRun(states, ts, k.home) && states[0] == sys && |ts| == 5 && ts[4] == Local(k.away, SDone(k.device, true))
    && k.home in states[4].chains && states[4].chains[k.home].now < k.until
    && k.away in states[4].chains && states[4].chains[k.away].now < k.until
    && k.away in states[5].chains && k.home in sys.chains && k.device !in states[5].chains[k.away].s.orders
    && k.home in states[5].chains && k.Waits(sys.chains[k.home], states[5].chains[k.home])
    && states[5].chains.Keys == sys.chains.Keys && states[5].net == multiset{k.accept, k.reply}
  }

  function Placed(sys: System, k: Scene): Chain
    requires k.home in sys.chains
  {
    Dispatch(k.home, Dispatch(k.home, sys.chains[k.home], k.offer).chain, k.place).chain
  }

  function Serves(sys: System, k: Scene): Chain
    requires k.away in sys.chains
  {
    Dispatch(k.away, sys.chains[k.away], k.serve).chain
  }

  /** Both registrations and the placement. */
  lemma Ordering(sys: System, k: Scene) returns (states: seq<System>, ts: seq<Transition>)
    requires k.Opens(sys)
    ensures IsRun(states, ts, k.home) && states[0] == sys && |ts| == 3
    ensures states[3] ==
      System(sys.chains[k.home := Placed(sys, k)][k.away := Serves(sys, k)], multiset{k.request})
  {
    Placing(sys, k);
    Serving(sys, k);
    StartRun(sys, k.home);
    hide Dispatch, Scene.Waits;
    var offer, serve, place := Local(k.home, k.offer), Local(k.away, k.serve), Local(k.home, k.place);
    var s1 := Next(sys, offer);
    var s2 := Next(s1, serve);
    var s3 := Next(s2, place);
    assert s1.net == s2.net == multiset{} && s3.net == multiset{k.request};
    assert s3.chains == sys.chains[k.home := Placed(sys, k)][k.away := Serves(sys, k)];
    hide Next, Enabled;
    ExtendRun([sys], [], k.home, offer);
    ExtendRun([sys] + [s1], [] + [offer], k.home, serve);
    ExtendRun([sys] + [s1] + [s2], [] + [offer] + [serve], k.home, place);
    states, ts := [sys] + [s1] + [s2] + [s3], [] + [offer] + [serve] + [place];
  }

  lemma Reporting(sys: System, k: Scene, s3: System)
    requires k.Opens(sys)
    requires s3 == System(sys.chains[k.home := Placed(sys, k)][k.away := Serves(sys, k)], multiset{k.request})
    ensures var take := Deliver(k.request, true, Some(DeviceState.Accepted));
      var done := Local(k.away, SDone(k.device, true));
      && Enabled(s3, take) && Enabled(Next(s3, take), done)
      && var s4, s5 := Next(s3, take), Next(Next(s3, take), done);
      && s4.chains.Keys == s5.chains.Keys == sys.chains.Keys && s5.net == multiset{k.accept, k.reply}
      && s4.chains[k.home] == s5.chains[k.home] == Placed(sys, k)
      && s4.chains[k.away].now == sys.chains[k.away].now && k.device !in s5.chains[k.away].s.orders
  {
    Placing(sys, k);
    Serving(sys, k);
    hide Dispatch, Scene.Waits;
    var s4 := Next(s3, Deliver(k.request, true, Some(DeviceState.Accepted)));
    assert s4.net == multiset{k.accept};
  }

  lemma Working(sys: System, k: Scene) returns (states: seq<System>, ts: seq<Transition>)
    requires k.Opens(sys)
    ensures DoneInTime(sys, k, states, ts)
  {
    Placing(sys, k);
    states, ts := Ordering(sys, k);
    Reporting(sys, k, states[3]);
    hide Dispatch, Scene.Waits, Next, Enabled, IsRun;
    var take, done := Deliver(k.request, true, Some(DeviceState.Accepted)), Local(k.away, SDone(k.device, true));
    var s4 := Next(states[3], take);
    var s5 := Next(s4, done);
    ExtendRun(states, ts, k.home, take);
    ExtendRun(states + [s4], ts + [take], k.home, done);
    states, ts := states + [s4] + [s5], ts + [take] + [done];
  }

  /** The deadline passes on the home chain while the report is in flight. */
  lemma Waiting(sys: System, k: Scene) returns (states: seq<System>, ts: seq<Transition>)
    requires k.Opens(sys)
    ensures IsRun(states, ts, k.home) && |ts| == 6 && DoneInTime(sys, k, states[..6], ts[..5])
    ensures var last := states[6];
      && last.chains.Keys == sys.chains.Keys && last.net == multiset{k.accept, k.reply}
      && k.home in last.chains && last.chains[k.home].now == k.until
      && k.Waits(sys.chains[k.home], last.chains[k.home].(now := sys.chains[k.home].now))
  {
    states, ts := Working(sys, k);
    var tick := Local(k.home, Tick(k.until));
    var last := Next(states[5], tick);
    assert last.net == states[5].net;
    hide Next, Enabled, IsRun;
    ExtendRun(states, ts, k.home, tick);
    assert (states + [last])[..6] == states && (ts + [tick])[..5] == ts;
    states, ts := states + [last], ts + [tick];
  }

  /** The home chain is sound then, and what waits there is that deal. */
  lemma WaitsSoundly(states: seq<System>, ts: seq<Transition>, sys: System, k: Scene)
    requires IsRun(states, ts, k.home) && |ts| == 6 && k.Opens(sys) && k.home in states[6].chains
    requires var c := states[6].chains[k.home];
      c.now == k.until && k.Waits(sys.chains[k.home], c.(now := sys.chains[k.home].now))
    ensures var c := states[6].chains[k.home];
      && Sound(k.home, c) && k.device in c.x.orders && k.device in c.x.devices
      && c.now == c.x.orders[k.device].until && c.x.orders[k.device].client == k.client
      && XE.DealOf(c.x, k.device) == Escrow.Deal(k.client, k.device, k.fee, k.penalty, k.until, 0)
      && c.s == sys.chains[k.home].s
      && Escrow.SetAside(sys.chains[k.home].ledger, XE.DealOf(c.x, k.device), c.ledger)
  {
    RunInv(states, ts, k.home, 6);
  }

  lemma Delivering(sys: System, k: Scene)
    requires k.reply in sys.net && k.home in sys.chains
    requires var c := sys.chains[k.home];
      && Sound(k.home, c) && k.device in c.x.orders && k.device in c.x.devices
      && c.now == c.x.orders[k.device].until && c.x.orders[k.device].client == k.client
    ensures var deliver := Deliver(k.reply, false, None);
      && Enabled(sys, deliver) && k.home in Next(sys, deliver).chains
      && Escrow.PaidOut(sys.chains[k.home].ledger, XE.DealOf(sys.chains[k.home].x, k.device), true, true,
        Next(sys, deliver).chains[k.home].ledger)
  {
    hide X.HandleStep, Escrow.PaidOut, Sound;
    Guarantees.ClientReplySettles(k.home, sys.chains[k.home], k.reply.msg);
  }

  /** Lateness is judged at delivery: the device reports the work before the deadline on either
      clock, and its penalty goes to the client all the same. */
  lemma DoneInTimeSettledLate(sys: System, k: Scene) returns (states: seq<System>, ts: seq<Transition>)
    requires k.Opens(sys)
    ensures IsRun(states, ts, k.home) && |ts| == 7 && DoneInTime(sys, k, states[..6], ts[..5])
    ensures ts[6] == Deliver(k.reply, false, None) && k.home in states[6].chains && k.home in states[7].chains
    ensures var deal := Escrow.Deal(k.client, k.device, k.fee, k.penalty, k.until, 0);
      Escrow.PaidOut(states[6].chains[k.home].ledger, deal, true, true, states[7].chains[k.home].ledger)
  {
    states, ts := Waiting(sys, k);
    WaitsSoundly(states, ts, sys, k);
    Delivering(states[6], k);
    hide IsRun, DoneInTime, Scene.Waits, Escrow.PaidOut, Sound, Next, Enabled;
    var deliver := Deliver(k.reply, false, None);
    var last := Next(states[6], deliver);
    ExtendRun(states, ts, k.home, deliver);
    assert (states + [last])[..6] == states[..6] && (ts + [deliver])[..5] == ts[..5];
    states, ts := states + [last], ts + [deliver];
  }

  /** The client cancels while the report is in flight. */
  lemma Cancelling(sys: System, k: Scene) returns (states: seq<System>, ts: seq<Transition>)
    requires k.Opens(sys)
    ensures IsRun(states, ts, k.home) && |ts| == 7 && DoneInTime(sys, k, states[..6], ts[..5])
    ensures ts[6] == Local(k.home, XCancel(k.client, k.device))
    ensures k.reply in states[7].net && k.home in states[7].chains
    ensures k.device !in states[7].chains[k.home].x.orders
    ensures forall a :: a != k.client && a != k.device ==>
      Free(states[7].chains[k.home].ledger, a) == Free(sys.chains[k.home].ledger, a)
    ensures Free(states[7].chains[k.home].ledger, k.client) >= Free(sys.chains[k.home].ledger, k.client)
    ensures Reserved(states[7].chains[k.home].ledger, k.client) == Reserved(sys.chains[k.home].ledger, k.client)
    ensures states[7].chains[k.home].s == sys.chains[k.home].s && states[7].chains[k.home].now == k.until
  {
    states, ts := Waiting(sys, k);
    WaitsSoundly(states, ts, sys, k);
    var cancel := Local(k.home, XCancel(k.client, k.device));
    CancelReturns(k.home, sys.chains[k.home].ledger, states[6].chains[k.home], k.device);
    hide IsRun, DoneInTime, Scene.Waits, Escrow.SetAside, Sound, Dispatch;
    var last := Next(states[6], cancel);
    assert k.reply in last.net;
    ExtendRun(states, ts, k.home, cancel);
    assert (states + [last])[..6] == states[..6] && (ts + [cancel])[..5] == ts[..5];
    states, ts := states + [last], ts + [cancel];
  }

  /** A late cancel gives the client back what the order set aside of his. */
  lemma CancelReturns(p: ParaId, l: Ledger, c: Chain, d: AccountId)
    requires Sound(p, c) && d in c.x.orders && d in c.x.devices && c.now >= c.x.orders[d].until
    requires c.x.orders[d].client != d && Escrow.SetAside(l, XE.DealOf(c.x, d), c.ledger)
    ensures var client := c.x.orders[d].client;
      var c' := Dispatch(p, c, XCancel(client, d)).chain;
      && d !in c'.x.orders && c'.s == c.s && c'.now == c.now
      && (forall a :: a != client && a != d ==> Free(c'.ledger, a) == Free(l, a))
      && Free(c'.ledger, client) >= Free(l, client) && Reserved(c'.ledger, client) == Reserved(l, client)
  {
    Guarantees.ClientCanCancel(p, c, d);
    hide X.CancelStep;
  }

  /** A stale reply from the genesis: the client cancels while the report is in flight; once the
      device registers as ready again, `other` orders, and the report takes that order away and
      leaves its fee reserved with no order behind it. */
  lemma StaleReplyFromGenesis(sys: System, k: Scene, other: AccountId)
    returns (states: seq<System>, ts: seq<Transition>, after: seq<System>, us: seq<Transition>)
    requires k.Opens(sys) && other != k.client && other != k.device
    requires 0 < k.fee <= Free(sys.chains[k.home].ledger, other)
    ensures IsRun(states, ts, k.home) && |ts| == 7 && DoneInTime(sys, k, states[..6], ts[..5])
    ensures ts[6] == Local(k.home, XCancel(k.client, k.device))
    ensures IsSegment(after, us) && after[0] == states[7] && |us| == 3
    ensures us[0] == Local(k.home, XRegister(k.device, k.away, 0, 0, true)) && us[2] == Deliver(k.reply, false, None)
    ensures us[1].Local? && us[1].p == k.home && us[1].call.XOrder?
    ensures us[1].call.who == other && us[1].call.order.fee == k.fee
    ensures k.home in after[1].chains && k.home in after[3].chains
    ensures StaleReplies.FeeStranded(
      k.home, after[1].chains[k.home], after[3].chains[k.home], k.device, other, k.fee)
  {
    states, ts := Cancelling(sys, k);
    hide IsRun, DoneInTime, Scene.Waits, StaleReplies.FeeStranded;
    after, us := StaleReplies.StaleReplyStrandsFee(
      states[7], k.home, XRegister(k.device, k.away, 0, 0, true), other, k.fee, k.reply);
  }

  /** The client opens a second deal, with a device of the own chain. */
  lemma SecondDeal(
    states: seq<System>, ts: seq<Transition>, p: ParaId, client: AccountId, device: AccountId, fee: Balance)
    returns (states': seq<System>, ts': seq<Transition>)
    requires IsRun(states, ts, p) && p in states[|ts|].chains && client != device
    requires device !in states[|ts|].chains[p].s.orders && fee <= Free(states[|ts|].chains[p].ledger, client)
    ensures IsRun(states', ts', p) && |ts'| == |ts| + 2 && states'[..|ts| + 1] == states && ts'[..|ts|] == ts
    ensures p in states'[|ts'|].chains && states[|ts|].net <= states'[|ts'|].net
    ensures var c, c' := states[|ts|].chains[p], states'[|ts'|].chains[p];
      && c'.x == c.x && SE.IsLocal(p, c'.s, device)
      && c'.s.orders[device].client == client && c'.s.orders[device].fee == fee
      && Reserved(c'.ledger, client) == Reserved(c.ledger, client) + fee
      && (forall a :: a != client ==> Free(c'.ledger, a) == Free(c.ledger, a))
  {
    var now := states[|ts|].chains[p].now;
    var serve, place := SRegister(device, 0, 0, true), SOrder(client, OrderBase(now + 1, 0, fee, device), Some(Busy));
    LocalOrdering(p, states[|ts|].chains[p], client, device, fee);
    hide Dispatch, IsRun;
    var ready := Next(states[|ts|], Local(p, serve));
    var placed := Next(ready, Local(p, place));
    assert placed.chains[p] == Dispatch(p, Dispatch(p, states[|ts|].chains[p], serve).chain, place).chain;
    ExtendRun(states, ts, p, Local(p, serve));
    ExtendRun(states + [ready], ts + [Local(p, serve)], p, Local(p, place));
    states', ts' := states + [ready] + [placed], ts + [Local(p, serve)] + [Local(p, place)];
  }

  lemma LocalOrdering(p: ParaId, c: Chain, client: AccountId, device: AccountId, fee: Balance)
    requires device !in c.s.orders && fee <= Free(c.ledger, client) && client != device
    ensures var ready := Dispatch(p, c, SRegister(device, 0, 0, true)).chain;
      var c' := Dispatch(p, ready, SOrder(client, OrderBase(c.now + 1, 0, fee, device), Some(Busy))).chain;
      && c'.x == c.x && SE.IsLocal(p, c'.s, device)
      && c'.s.orders[device].client == client && c'.s.orders[device].fee == fee
      && Reserved(c'.ledger, client) == Reserved(c.ledger, client) + fee
      && (forall a :: a != client ==> Free(c'.ledger, a) == Free(c.ledger, a))
  {
    var order := OrderBase(c.now + 1, 0, fee, device);
    var ready := Dispatch(p, c, SRegister(device, 0, 0, true)).chain;
    ServiceCalls.RegisterDoes(p, c, device, 0, 0, true);
    ServiceCalls.OrderIsReceipt(p, ready, client, order, Some(Busy));
    ServiceCalls.ReceiptAnswers(p, ready, p, client, order, Some(Busy));
    ServiceCalls.ReceiptDoes(p, ready, p, client, order, Some(Busy));
    hide Dispatch;
  }

  /** A stale reply from the genesis that takes money backing another deal: as before, but the
      client it names has meanwhile opened a second deal. After the reply less of the client's
      money is reserved than that deal's fee, and the chain is not backed any more. */
  lemma StaleReplyRobsFromGenesis(
    sys: System, k: Scene, other: AccountId, device: AccountId, fee: Balance)
    returns (states: seq<System>, ts: seq<Transition>, after: seq<System>, us: seq<Transition>)
    requires k.Opens(sys) && other != k.client && other != k.device && device != k.client
    requires 0 < k.fee <= Free(sys.chains[k.home].ledger, other)
    requires 0 < fee <= Free(sys.chains[k.home].ledger, k.client) && Reserved(sys.chains[k.home].ledger, k.client) == 0
    ensures IsRun(states, ts, k.home) && |ts| == 9 && DoneInTime(sys, k, states[..6], ts[..5])
    ensures IsSegment(after, us) && after[0] == states[9] && |us| == 3
    ensures us[0] == Local(k.home, XRegister(k.device, k.away, 0, 0, true)) && us[2] == Deliver(k.reply, false, None)
    ensures us[1].Local? && us[1].p == k.home && us[1].call.XOrder? && us[1].call.who == other
    ensures k.home in after[3].chains
    ensures var c := after[3].chains[k.home];
      && SE.IsLocal(k.home, c.s, device) && c.s.orders[device].client == k.client && c.s.orders[device].fee == fee
      && Reserved(c.ledger, k.client) == (if k.fee < fee then fee - k.fee else 0) && !Backed(k.home, c)
  {
    states, ts := Cancelling(sys, k);
    var early, us0 := states, ts;
    assert states[..6] == early[..6];
    states, ts := SecondDeal(states, ts, k.home, k.client, device, fee);
    assert states[..6] == early[..6] && ts[..5] == us0[..5] by {
      assert states[..8][..6] == states[..6] && ts[..7][..5] == ts[..5];
    }
    hide IsRun, DoneInTime, StaleReplies.FeeStranded, Slack, StaleReplies.BackingTaken, SE.IsLocal;
    after, us := StaleReplies.StaleReplyStrandsFee(
      states[9], k.home, XRegister(k.device, k.away, 0, 0, true), other, k.fee, k.reply);
    LessThanItsDeal(k.home, after[1].chains[k.home], after[3].chains[k.home], device, k.fee);
  }

  lemma LessThanItsDeal(p: ParaId, c: Chain, c': Chain, d: AccountId, fee: Balance)
    requires SE.IsLocal(p, c.s, d) && Reserved(c.ledger, c.s.orders[d].client) == c.s.orders[d].fee > 0
    requires StaleReplies.BackingTaken(p, c, c', c.s.orders[d].client, fee) && fee > 0
    ensures c'.s == c.s && !Backed(p, c')
    ensures var mine := c.s.orders[d].fee;
      Reserved(c'.ledger, c.s.orders[d].client) == if fee < mine then mine - fee else 0
  {
    var deals, client := SE.Deals(p, c.s), c.s.orders[d].client;
    assert Escrow.Share(deals[d], client) >= c.s.orders[d].fee;
    Escrow.LockedAtLeast(deals, d, client);
    assert Slack(p, c', client) < 0;
  }

  // A self-order

  /** A registration and an order from oneself that fails, on a chain where nothing happened. */
  lemma SelfOrdering(p: ParaId, c: Chain, device: AccountId, fee: Balance, penalty: Balance)
    requires c.x == X.State(map[], map[], []) && c.s == S.State(map[], map[], []) && 0 < penalty
    requires fee <= Free(c.ledger, device) && penalty <= Free(c.ledger, device) < fee + penalty
    ensures var registered := Dispatch(p, c, XRegister(device, 0, penalty, 0, true));
      var placed := Dispatch(p, registered.chain, XOrder(device, OrderBase(c.now + 1, 0, fee, device)));
      && registered.sent == None && placed.sent == None && placed.result == Err(InsufficientBalance)
      && placed.chain.x.orders == map[] && placed.chain.s.orders == map[]
      && Reserved(placed.chain.ledger, device) == Reserved(c.ledger, device) + penalty
      && XE.Deals(placed.chain.x) == XE.Deals(c.x) && placed.chain.s == c.s
  {
  }

  /** One account is client and device and owns enough for the fee and for the penalty, but not
      for both: the call fails, and the penalty stays reserved with no order behind it. */
  lemma SelfOrderStrandsPenalty(sys: System, p: ParaId, device: AccountId, fee: Balance, penalty: Balance)
    returns (states: seq<System>, ts: seq<Transition>)
    requires Genesis(sys) && p in sys.chains && 0 < penalty
    requires fee <= Free(sys.chains[p].ledger, device) && penalty <= Free(sys.chains[p].ledger, device)
    requires Free(sys.chains[p].ledger, device) < fee + penalty
    ensures IsRun(states, ts, p) && states[0] == sys && |ts| == 2 && p in states[1].chains && p in states[2].chains
    ensures ts[1].Local? && ts[1].p == p && ts[1].call.XOrder?
    ensures ts[1].call.who == device == ts[1].call.order.device && ts[1].call.order.fee == fee
    ensures var c, c' := states[1].chains[p], states[2].chains[p];
      && Dispatch(p, c, ts[1].call).result == Err(InsufficientBalance)
      && c'.x.orders == map[] && c'.s.orders == map[]
      && Reserved(c'.ledger, device) == Reserved(sys.chains[p].ledger, device) + penalty
      && Slack(p, c', device) == Slack(p, sys.chains[p], device) + penalty
  {
    var register := Local(p, XRegister(device, 0, penalty, 0, true));
    var place := Local(p, XOrder(device, OrderBase(sys.chains[p].now + 1, 0, fee, device)));
    SelfOrdering(p, sys.chains[p], device, fee, penalty);
    StartRun(sys, p);
    hide Dispatch;
    var registered := Next(sys, register);
    var placed := Next(registered, place);
    ExtendRun([sys], [], p, register);
    ExtendRun([sys] + [registered], [] + [register], p, place);
    states, ts := [sys] + [registered] + [placed], [] + [register] + [place];
  }

  /** A scene of two chains on which everybody owns 7: enough for all of the above. */
  function Sample(): System {
    var purse := AccountData(7, 0);
    var c := Chain(0, map[10 := purse, 11 := purse, 20 := purse], X.State(map[], map[], []), S.State(map[], map[], []));
    System(map[1 := c, 2 := c], multiset{})
  }

  lemma SampleOpens()
    ensures Scene(1, 2, 10, 20, 5, 5, 9).Opens(Sample())
    ensures Free(Sample().chains[1].ledger, 11) == Free(Sample().chains[1].ledger, 20) == 7
  {
  }
}
