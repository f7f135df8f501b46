/** The environment assumption is exactly what is needed: when a device's early registration can
    cost another client money, and when it cannot. */
module Harm {
  import opened Common
  import opened Balances
  import opened Chains
  import opened Network
  import opened Runs
  import opened StaleReplies
  import Escrow
  import Guarantees
  import Tokens
  import X = XChange
  import XE = XChangeEscrow
  import SE = XChangeServiceEscrow

  // Segments in which the devices of a chain wait

  /** A step in which no device registers as ready on chain `c`, and nobody there orders from
      himself. */
  predicate Calm(t: Transition, c: ParaId) {
    Acts(t, c) ==> !(CallAt(t, c).XRegister? && CallAt(t, c).onoff) && !SelfOrder(c, CallAt(t, c))
  }

  ghost predicate IsCalm(ts: seq<Transition>, c: ParaId) {
    forall i {:trigger ts[i]} :: 0 <= i < |ts| ==> Calm(ts[i], c)
  }

  ghost predicate CalmSegment(c: ParaId, sys: System, sys': System, states: seq<System>, ts: seq<Transition>) {
    IsSegment(states, ts) && states[0] == sys && states[|ts|] == sys' && IsCalm(ts, c)
  }

  /** Calm steps lead from `sys` to `sys'`. */
  ghost predicate Leads(c: ParaId, sys: System, sys': System) {
    exists states, ts :: CalmSegment(c, sys, sys', states, ts)
  }

  lemma StepLeads(c: ParaId, sys: System, t: Transition)
    requires Enabled(sys, t) && Calm(t, c)
    ensures Leads(c, sys, Next(sys, t))
  {
    hide Enabled, Next, Calm;
    assert CalmSegment(c, sys, Next(sys, t), [sys, Next(sys, t)], [t]);
  }

  lemma StayLeads(c: ParaId, sys: System)
    ensures Leads(c, sys, sys)
  {
    assert CalmSegment(c, sys, sys, [sys], []);
  }

  lemma AwayLeads(c: ParaId, sys: System, states: seq<System>, ts: seq<Transition>)
    requires AwayFrom(c, sys, states, ts)
    ensures Leads(c, sys, states[|ts|])
  {
    hide Enabled, Next, Acts;
    assert CalmSegment(c, sys, states[|ts|], states, ts);
  }

  lemma JoinSegments(states: seq<System>, ts: seq<Transition>, states': seq<System>, ts': seq<Transition>)
    requires IsSegment(states, ts) && IsSegment(states', ts') && states'[0] == states[|ts|]
    ensures IsSegment(states + states'[1..], ts + ts')
  {
    hide Enabled, Next;
    var all, us := states + states'[1..], ts + ts';
    forall i | 0 <= i < |us|
      ensures Enabled(all[i], us[i]) && all[i + 1] == Next(all[i], us[i])
    {
      if i >= |ts| {
        assert us[i] == ts'[i - |ts|];
        assert all[i] == states'[i - |ts|];
      } else {
        assert us[i] == ts[i];
      }
    }
  }

  lemma LeadsOn(c: ParaId, sys: System, mid: System, sys': System)
    requires Leads(c, sys, mid) && Leads(c, mid, sys')
    ensures Leads(c, sys, sys')
  {
    hide IsSegment, Calm;
    var states, ts :| CalmSegment(c, sys, mid, states, ts);
    var states', ts' :| CalmSegment(c, mid, sys', states', ts');
    SegmentLength(states, ts);
    SegmentLength(states', ts');
    JoinSegments(states, ts, states', ts');
    JoinIsCalm(c, ts, ts');
    assert CalmSegment(c, sys, sys', states + states'[1..], ts + ts');
  }

  lemma SegmentLength(states: seq<System>, ts: seq<Transition>)
    requires IsSegment(states, ts)
    ensures |states| == |ts| + 1
  {
  }

  lemma JoinIsCalm(c: ParaId, ts: seq<Transition>, ts': seq<Transition>)
    requires IsCalm(ts, c) && IsCalm(ts', c)
    ensures IsCalm(ts + ts', c)
  {
    hide Calm;
  }

  // What money there is to place orders with

  /** What is free on a chain, or held by its open deals and can become free. */
  ghost function Spendable(p: ParaId, c: Chain): nat {
    TotalFree(c.ledger) + Escrow.Stakes(XE.Deals(c.x)) + Escrow.Stakes(SE.Deals(p, c.s))
  }

  lemma MovesKeepSpendable(p: ParaId, c: Chain, move: Move, c': Chain)
    requires Chains.Moves(p, c, move, c') && forall a :: move.Stranded(a) == 0
    ensures Spendable(p, c') == Spendable(p, c)
  {
    match move
    case OnClient(act) =>
      assert forall a :: Escrow.Stranded(act, a) == move.Stranded(a);
      Escrow.MovesKeepMoney(c.now, c.ledger, XE.Deals(c.x), act, c'.ledger, XE.Deals(c'.x));
    case OnService(act) =>
      assert forall a :: Escrow.Stranded(act, a) == move.Stranded(a);
      Escrow.MovesKeepMoney(c.now, c.ledger, SE.Deals(p, c.s), act, c'.ledger, SE.Deals(p, c'.s));
    case Outside(from, to, amount) =>
      TotalFreeChanges(c.ledger, c'.ledger, from, 0 - amount, to, amount);
  }

  /** Nobody's books have changed, nor has the money there is. */
  ghost predicate SameBooks(p: ParaId, c: Chain, c': Chain) {
    Spendable(p, c') == Spendable(p, c) && forall a :: Slack(p, c', a) == Slack(p, c, a)
  }

  /** A call that meets its own orders' replies, and is no self-order, keeps the books. */
  lemma DispatchKeepsBooks(p: ParaId, c: Chain, call: Call)
    requires Sound(p, c) && Allowed(c, call) && Faithful(c, call) && !SelfOrder(p, call)
    ensures Sound(p, Dispatch(p, c, call).chain) && SameBooks(p, c, Dispatch(p, c, call).chain)
  {
    hide Dispatch, MoveOf, Sound, Chains.Moves, SelfOrder, Slack, Spendable;
    var c', move := Dispatch(p, c, call).chain, MoveOf(p, c, call);
    DispatchMoves(p, c, call);
    forall a
      ensures Slack(p, c', a) == Slack(p, c, a) && move.Stranded(a) == 0
    {
      StrandingNeedsSelfOrder(p, c, call, a);
      MovesKeepBooks(p, c, move, c', a);
    }
    MovesKeepSpendable(p, c, move, c');
  }

  // All of it can be had

  /** Calm steps on chain `c` that keep the books, the devices and the network, and add no order. */
  ghost predicate Tidies(c: ParaId, sys: System, sys': System) {
    && c in sys.chains && c in sys'.chains && Leads(c, sys, sys') && sys'.net == sys.net
    && Sound(c, sys'.chains[c]) && SameBooks(c, sys.chains[c], sys'.chains[c])
    && sys'.chains[c].x.devices == sys.chains[c].x.devices
    && sys'.chains[c].x.orders.Keys <= sys.chains[c].x.orders.Keys
  }

  lemma TidiesOn(c: ParaId, sys: System, mid: System, sys': System)
    requires Tidies(c, sys, mid) && Tidies(c, mid, sys')
    ensures Tidies(c, sys, sys')
  {
    hide Leads, Sound, Slack, Spendable;
    LeadsOn(c, sys, mid, sys');
  }

  lemma StayTidies(c: ParaId, sys: System)
    requires c in sys.chains && Sound(c, sys.chains[c])
    ensures Tidies(c, sys, sys)
  {
    hide Leads, Sound, Slack, Spendable;
    StayLeads(c, sys);
  }

  /** The calls such steps are made of. */
  predicate Tidy(call: Call) {
    call.Tick? || call.Transfer? || call.XCancel? || call.SCancel?
  }

  lemma TidyStep(c: ParaId, sys: System, call: Call)
    requires c in sys.chains && Sound(c, sys.chains[c]) && Tidy(call) && Allowed(sys.chains[c], call)
    requires var effect := Dispatch(c, sys.chains[c], call);
      && effect.sent == None && effect.chain.x.devices == sys.chains[c].x.devices
      && effect.chain.x.orders.Keys <= sys.chains[c].x.orders.Keys
    ensures Enabled(sys, Local(c, call)) && Tidies(c, sys, Next(sys, Local(c, call)))
    ensures Next(sys, Local(c, call)).chains[c] == Dispatch(c, sys.chains[c], call).chain
  {
    DispatchKeepsBooks(c, sys.chains[c], call);
    StepLeads(c, sys, Local(c, call));
    hide Leads, Sound, Slack, Spendable, Dispatch;
  }

  lemma WaitTidies(c: ParaId, sys: System, until: Moment) returns (sys': System)
    requires c in sys.chains && Sound(c, sys.chains[c])
    ensures Tidies(c, sys, sys') && until <= sys'.chains[c].now
    ensures sys'.chains[c] == sys.chains[c].(now := sys'.chains[c].now)
  {
    var to := if sys.chains[c].now < until then until else sys.chains[c].now;
    TidyStep(c, sys, Tick(to));
    hide Tidies;
    sys' := Next(sys, Local(c, Tick(to)));
  }

  /** The client of an open deal can end it, and the books stay. */
  lemma CloseClientDeal(c: ParaId, sys: System, d: AccountId) returns (sys': System)
    requires c in sys.chains && Sound(c, sys.chains[c]) && d in XE.Deals(sys.chains[c].x)
    ensures Tidies(c, sys, sys') && sys'.chains[c].s == sys.chains[c].s
    ensures XE.Deals(sys'.chains[c].x) == XE.Deals(sys.chains[c].x) - {d}
  {
    var order := sys.chains[c].x.orders[d];
    var mid := WaitTidies(c, sys, order.until);
    hide Leads, SameBooks;
    var call := XCancel(order.client, d);
    CancelCloses(c, mid.chains[c], d);
    hide Dispatch;
    TidyStep(c, mid, call);
    sys' := Next(mid, Local(c, call));
    hide Tidies, Next, Enabled;
    TidiesOn(c, sys, mid, sys');
  }

  lemma CancelCloses(p: ParaId, c: Chain, d: AccountId)
    requires Sound(p, c) && d in c.x.orders && c.now >= c.x.orders[d].until
    ensures var effect := Dispatch(p, c, XCancel(c.x.orders[d].client, d));
      && effect.sent == None && effect.chain.x.devices == c.x.devices && effect.chain.s == c.s
      && effect.chain.x.orders.Keys <= c.x.orders.Keys && XE.Deals(effect.chain.x) == XE.Deals(c.x) - {d}
  {
    Guarantees.ClientCanCancel(p, c, d);
    XE.CancelMoves(c.ledger, c.x, c.now, c.x.orders[d].client, d);
    hide Unreserve, RepatriateReserved, Sound, Escrow.PaidOut;
  }

  lemma {:induction false} ClearClient(c: ParaId, sys: System) returns (sys': System)
    requires c in sys.chains && Sound(c, sys.chains[c])
    ensures Tidies(c, sys, sys') && XE.Deals(sys'.chains[c].x) == map[]
    decreases |XE.Deals(sys.chains[c].x)|
  {
    hide XE.Deals, Sound, SameBooks, Leads;
    var deals := XE.Deals(sys.chains[c].x);
    if d :| d in deals {
      var mid := CloseClientDeal(c, sys, d);
      assert (deals - {d}).Keys == deals.Keys - {d};
      sys' := ClearClient(c, mid);
      TidiesOn(c, sys, mid, sys');
    } else {
      StayTidies(c, sys);
      sys' := sys;
    }
  }

  /** So can the client of an open deal of the service pallet. */
  lemma CloseServiceDeal(c: ParaId, sys: System, d: AccountId) returns (sys': System)
    requires c in sys.chains && Sound(c, sys.chains[c]) && d in SE.Deals(c, sys.chains[c].s)
    ensures Tidies(c, sys, sys') && sys'.chains[c].x == sys.chains[c].x
    ensures SE.Deals(c, sys'.chains[c].s) == SE.Deals(c, sys.chains[c].s) - {d}
  {
    var order := sys.chains[c].s.orders[d];
    var mid := WaitTidies(c, sys, order.until);
    hide Leads, SameBooks;
    var call := SCancel(order.client, d);
    ServiceCancelCloses(c, mid.chains[c], d);
    hide Dispatch;
    TidyStep(c, mid, call);
    sys' := Next(mid, Local(c, call));
    hide Tidies, Next, Enabled;
    TidiesOn(c, sys, mid, sys');
  }

  lemma ServiceCancelCloses(p: ParaId, c: Chain, d: AccountId)
    requires Sound(p, c) && SE.IsLocal(p, c.s, d) && c.now >= c.s.orders[d].until
    ensures var effect := Dispatch(p, c, SCancel(c.s.orders[d].client, d));
      && effect.sent == None && effect.chain.x == c.x && SE.Deals(p, effect.chain.s) == SE.Deals(p, c.s) - {d}
  {
    Guarantees.ServiceClientCanCancel(p, c, d);
    SE.CancelMoves(p, c.ledger, c.s, c.now, c.s.orders[d].client, d);
    hide Unreserve, RepatriateReserved, Sound, Escrow.PaidOut;
  }

  lemma {:induction false} ClearService(c: ParaId, sys: System) returns (sys': System)
    requires c in sys.chains && Sound(c, sys.chains[c])
    ensures Tidies(c, sys, sys') && SE.Deals(c, sys'.chains[c].s) == map[]
    ensures sys'.chains[c].x == sys.chains[c].x
    decreases |SE.Deals(c, sys.chains[c].s)|
  {
    hide SE.Deals, Sound, SameBooks, Leads;
    var deals := SE.Deals(c, sys.chains[c].s);
    if d :| d in deals {
      var mid := CloseServiceDeal(c, sys, d);
      assert (deals - {d}).Keys == deals.Keys - {d};
      sys' := ClearService(c, mid);
      TidiesOn(c, sys, mid, sys');
    } else {
      StayTidies(c, sys);
      sys' := sys;
    }
  }

  /** The accounts with free money, other than `client`. */
  ghost function Payers(l: Ledger, client: AccountId): set<AccountId> {
    set a | a in l && a != client && Free(l, a) > 0
  }

  lemma PayClient(c: ParaId, sys: System, from: AccountId, to: AccountId, amount: Balance) returns (sys': System)
    requires c in sys.chains && Sound(c, sys.chains[c]) && amount <= Free(sys.chains[c].ledger, from)
    ensures Tidies(c, sys, sys')
    ensures sys'.chains[c] == sys.chains[c].(ledger := Balances.Transfer(sys.chains[c].ledger, from, to, amount))
  {
    TidyStep(c, sys, Call.Transfer(from, to, amount));
    hide Tidies, Balances.Transfer;
    sys' := Next(sys, Local(c, Call.Transfer(from, to, amount)));
  }

  /** Transfers can bring all free money together. */
  lemma {:induction false} Gather(c: ParaId, sys: System, client: AccountId) returns (sys': System)
    requires c in sys.chains && Sound(c, sys.chains[c])
    ensures Tidies(c, sys, sys') && sys'.chains[c].x == sys.chains[c].x && sys'.chains[c].s == sys.chains[c].s
    ensures TotalFree(sys'.chains[c].ledger) == Free(sys'.chains[c].ledger, client)
    decreases |Payers(sys.chains[c].ledger, client)|
  {
    hide Sound, SameBooks, Leads;
    var l := sys.chains[c].ledger;
    if a :| a in Payers(l, client) {
      var mid := PayClient(c, sys, a, client, Free(l, a));
      PayerGone(l, a, client);
      sys' := Gather(c, mid, client);
      TidiesOn(c, sys, mid, sys');
    } else {
      StayTidies(c, sys);
      assert forall b :: b != client ==> Free(l, b) == 0 by {
        forall b | b != client
          ensures Free(l, b) == 0
        {
          assert b !in Payers(l, client);
        }
      }
      OneHasAll(l, client);
      sys' := sys;
    }
  }

  lemma PayerGone(l: Ledger, a: AccountId, client: AccountId)
    requires a in Payers(l, client)
    ensures |Payers(Balances.Transfer(l, a, client, Free(l, a)), client)| < |Payers(l, client)|
  {
    var l' := Balances.Transfer(l, a, client, Free(l, a));
    forall b | b in Payers(l', client)
      ensures b in Payers(l, client) - {a}
    {
      assert Free(l', b) > 0;
    }
    Smaller(Payers(l', client), Payers(l, client), a);
  }

  lemma Smaller(few: set<AccountId>, many: set<AccountId>, a: AccountId)
    requires few <= many - {a} && a in many
    ensures |few| < |many|
  {
    var rest := many - {a} - few;
    assert many == few + rest + {a};
  }

  lemma AllIsFree(p: ParaId, c: Chain)
    requires XE.Deals(c.x) == map[] && SE.Deals(p, c.s) == map[]
    ensures Spendable(p, c) == TotalFree(c.ledger)
  {
    assert Escrow.StakesOf(map[]) == map[];
  }

  /** The device can have its penalty and the client something besides, if there is that much. */
  lemma FundsCanBeHad(c: ParaId, sys: System, client: AccountId, device: AccountId, penalty: Balance)
    returns (sys': System)
    requires c in sys.chains && Sound(c, sys.chains[c]) && client != device
    requires penalty < Spendable(c, sys.chains[c])
    ensures Tidies(c, sys, sys')
    ensures 0 < Free(sys'.chains[c].ledger, client) && penalty <= Free(sys'.chains[c].ledger, device)
  {
    hide Leads, Sound, Slack, Spendable, Balances.Transfer, XE.Deals, SE.Deals;
    var cleared := ClearClient(c, sys);
    var free := ClearService(c, cleared);
    TidiesOn(c, sys, cleared, free);
    var gathered := Gather(c, free, client);
    TidiesOn(c, sys, free, gathered);
    AllIsFree(c, gathered.chains[c]);
    sys' := PayClient(c, gathered, client, device, penalty);
    TidiesOn(c, sys, gathered, sys');
  }

  // Harm

  /** After the registration `t`, steps that respect the environment assumption of its chain, and
      place no self-orders there, leave `client` with more reserved than its open deals account for. */
  ghost predicate Harms(sys: System, t: Transition, client: AccountId, states: seq<System>, ts: seq<Transition>)
    requires t.Local? && t.p in sys.chains
  {
    && IsSegment(states, ts) && states[0] == sys && 0 < |ts| && ts[0] == t
    && (forall i {:trigger ts[i]} :: 0 < i < |ts| ==>
      Quiet(states[i], ts[i], t.p, false) && NoSelfOrder(ts[i], t.p))
    && t.p in states[|ts|].chains
    && Slack(t.p, states[|ts|].chains[t.p], client) > Slack(t.p, sys.chains[t.p], client)
  }

  predicate NoSelfOrder(t: Transition, p: ParaId) {
    Acts(t, p) ==> !SelfOrder(p, CallAt(t, p))
  }

  /** Calm steps after the registration that end so are harm. */
  lemma LeadingHarms(sys: System, t: Transition, client: AccountId, last: System)
    requires t.Local? && t.p in sys.chains && Enabled(sys, t) && Leads(t.p, Next(sys, t), last)
    requires t.p in last.chains
    requires Slack(t.p, last.chains[t.p], client) > Slack(t.p, sys.chains[t.p], client)
    ensures exists states, ts :: Harms(sys, t, client, states, ts)
  {
    hide IsSegment, Next, Enabled, Slack, Calm, Quiet, NoSelfOrder;
    var states, ts :| CalmSegment(t.p, Next(sys, t), last, states, ts);
    StepIsSegment(sys, t);
    SegmentLength(states, ts);
    JoinSegments([sys, Next(sys, t)], [t], states, ts);
    var all, us := [sys, Next(sys, t)] + states[1..], [t] + ts;
    SegmentLength(all, us);
    assert all[0] == sys && us[0] == t && all[|us|] == last;
    forall i | 0 < i < |us|
      ensures Quiet(all[i], us[i], t.p, false) && NoSelfOrder(us[i], t.p)
    {
      CalmIsQuiet(all[i], us[i], t.p);
    }
    assert Harms(sys, t, client, all, us);
  }

  lemma CalmIsQuiet(sys: System, t: Transition, c: ParaId)
    requires Calm(t, c)
    ensures Quiet(sys, t, c, false) && NoSelfOrder(t, c)
  {
  }

  lemma StepIsSegment(sys: System, t: Transition)
    requires Enabled(sys, t)
    ensures IsSegment([sys, Next(sys, t)], [t])
  {
    hide Enabled, Next;
  }

  /** The two steps that take a new order away are calm, and strand its fee. */
  lemma LosingLeads(sys: System, c: ParaId, d: AccountId, client: AccountId, fee: Balance, reply: Envelope)
    returns (last: System)
    requires c in sys.chains && CanOrder(sys.chains[c], d, client, fee)
    requires reply in sys.net && IsReply(reply, c, d) && reply.msg.client != client
    ensures Leads(c, sys, last) && c in last.chains
    ensures Slack(c, last.chains[c], client) == Slack(c, sys.chains[c], client) + fee
  {
    NewOrderIsLost(sys, c, d, client, fee, reply);
    var place := Local(c, XOrder(client, NextOrder(sys.chains[c], d, fee)));
    var deliver := Deliver(reply, false, None);
    assert Calm(place, c) && Calm(deliver, c);
    hide Next, Enabled, Leads, Calm, Slack, CanOrder;
    StepLeads(c, sys, place);
    StepLeads(c, Next(sys, place), deliver);
    LeadsOn(c, sys, Next(sys, place), Next(Next(sys, place), deliver));
    last := Next(Next(sys, place), deliver);
  }

  /** What is outstanding comes back to a new order, as soon as there is money for one. */
  lemma EarlyRegistrationHarms(sys: System, t: Transition, client: AccountId)
    requires RegistersReady(sys, t) && Inv(sys, t.p)
    requires forall q :: q in sys.chains ==> SE.Engaged(sys.chains[q].s)
    requires !Quiescent(sys, t.p, t.call.id, false)
    requires Stranger(sys, t.p, t.call.id, client) && client != t.call.id
    requires t.call.penalty < Spendable(t.p, sys.chains[t.p])
    ensures exists states, ts :: Harms(sys, t, client, states, ts)
  {
    var c, d, penalty := t.p, t.call.id, t.call.penalty;
    RegistrationReopens(sys, t, client);
    var ready := Next(sys, t);
    var away, ats, reply := OutstandingCanReply(ready, c, d);
    var back := away[|ats|];
    AwayLeads(c, ready, away, ats);
    hide Leads, Sound, Slack, Spendable, Next, Enabled, AwayFrom, Quiescent, Stranger, Inv;
    var funded := FundsCanBeHad(c, back, client, d, penalty);
    assert CanOrder(funded.chains[c], d, client, 1);
    var last := LosingLeads(funded, c, d, client, 1, reply);
    LeadsOn(c, ready, back, funded);
    LeadsOn(c, ready, funded, last);
    LeadingHarms(sys, t, client, last);
  }

  /** A ready registration changes nothing of what is outstanding, nor of the money. */
  lemma RegistrationReopens(sys: System, t: Transition, client: AccountId)
    requires RegistersReady(sys, t) && Inv(sys, t.p)
    requires forall q :: q in sys.chains ==> SE.Engaged(sys.chains[q].s)
    ensures Enabled(sys, t)
    ensures var c, d, ready := t.p, t.call.id, Next(sys, t);
      && c in ready.chains && (forall q :: q in ready.chains ==> SE.Engaged(ready.chains[q].s))
      && (Quiescent(ready, c, d, false) <==> Quiescent(sys, c, d, false))
      && (Stranger(sys, c, d, client) ==> Stranger(ready, c, d, client))
      && Sound(c, ready.chains[c]) && SameBooks(c, sys.chains[c], ready.chains[c])
      && d !in ready.chains[c].x.orders && X.IsReady(ready.chains[c].x, d)
      && ready.chains[c].x.devices[d].penalty == t.call.penalty
  {
    var c, d, ready := t.p, t.call.id, Next(sys, t);
    DispatchKeepsBooks(c, sys.chains[c], t.call);
    hide Sound, SameBooks;
    assert ready.net == sys.net;
    assert forall q :: Held(ready, q, c, d) == Held(sys, q, c, d);
    assert forall e :: IsToken(ready, e, c, d, false) == IsToken(sys, e, c, d, false);
  }

  // No harm without outstanding orders, or without money

  /** Device `d` asks for `penalty`, and what orders it has pay no fee. */
  predicate Dear(x: X.State, d: AccountId, penalty: Balance) {
    && (d in x.orders ==> d in x.devices && x.devices[d].penalty == penalty && x.orders[d].fee == 0)
    && (X.IsReady(x, d) ==> x.devices[d].penalty == penalty)
  }

  /** The invariant of chain `c`, except that the order of `d` may meet any reply, if it is too
      dear for the money there is. */
  ghost predicate Safe(sys: System, c: ParaId, d: AccountId, penalty: Balance) {
    && c in sys.chains && Sound(c, sys.chains[c])
    && (forall a :: a != d ==> TokenInv(sys, c, a, false))
    && (TokenInv(sys, c, d, false) || (Spendable(c, sys.chains[c]) <= penalty && Dear(sys.chains[c].x, d, penalty)))
  }

  /** A successful order takes the fee and the penalty out of free money. */
  lemma OrderCosts(l: Ledger, x: X.State, now: Moment, who: AccountId, order: OrderBase)
    requires X.OrderStep(l, x, now, who, order).result.Ok? && who != order.device
    ensures X.IsReady(x, order.device) && order.fee + x.devices[order.device].penalty <= TotalFree(l)
  {
    Guarantees.ClientPlacementExact(l, x, now, who, order);
    TwoBelowTotalFree(l, who, order.device);
  }

  lemma StaysDear(p: ParaId, c: Chain, call: Call, d: AccountId, penalty: Balance)
    requires Engaged(c) && call.OfClientPallet() && !SelfOrder(p, call)
    requires Dear(c.x, d, penalty) && Spendable(p, c) <= penalty
    requires !(call.XRegister? && call.onoff && call.id == d && d !in c.x.orders)
    ensures Dear(XStep(c, call).state, d, penalty)
  {
    hide X.OrderStep, X.RejectStep, Unreserve, RepatriateReserved, Spendable;
    assert TotalFree(c.ledger) <= penalty by {
      SpendableHasFree(p, c);
    }
    Tokens.ClientShape(c, call, d);
    Guarantees.ClientStateMachine(c, call, d);
    if call.XOrder? {
      Guarantees.ClientPlacementAtomic(c.ledger, c.x, c.now, call.who, call.order);
      if XStep(c, call).result.Ok? && call.order.device == d {
        OrderCosts(c.ledger, c.x, c.now, call.who, call.order);
      }
    }
  }

  lemma SpendableHasFree(p: ParaId, c: Chain)
    ensures TotalFree(c.ledger) <= Spendable(p, c)
  {
  }

  /** A reply that names anyone keeps the books if there is no fee to pay. */
  lemma FreeReplyKeepsBooks(p: ParaId, c: Chain, msg: XcmpMessage)
    requires Sound(p, c) && msg.Terminal() && msg.device in c.x.orders && c.x.orders[msg.device].fee == 0
    ensures var c' := Dispatch(p, c, XHandle(msg)).chain;
      Sound(p, c') && SameBooks(p, c, c')
  {
    var c', deal, act := Dispatch(p, c, XHandle(msg)).chain, XE.Deals(c.x)[msg.device], MoveOf(p, c, XHandle(msg));
    FreeReplyMoney(p, c, msg);
    DispatchRecords(p, c, XHandle(msg));
    hide Dispatch;
    Escrow.RecordsTrackStakes(c.now, XE.Deals(c.x), act.act, XE.Deals(c'.x));
    forall a
      ensures Slack(p, c', a) == Slack(p, c, a) && Slack(p, c', a) >= 0
    {
      Escrow.RecordsTrackLocked(c.now, XE.Deals(c.x), act.act, XE.Deals(c'.x), a);
      assert Slack(p, c, a) >= 0;
    }
  }

  lemma FreeReplyMoney(p: ParaId, c: Chain, msg: XcmpMessage)
    requires Sound(p, c) && msg.Terminal() && msg.device in c.x.orders && c.x.orders[msg.device].fee == 0
    ensures msg.device in c.x.devices
    ensures var c', deal := Dispatch(p, c, XHandle(msg)).chain, XE.DealOf(c.x, msg.device);
      && c'.s == c.s && MoveOf(p, c, XHandle(msg)).OnClient?
      && MoveOf(p, c, XHandle(msg)).act == Escrow.Settle(deal, msg.OrderDone?, c.now >= deal.until)
      && (forall a :: Reserved(c'.ledger, a) == Reserved(c.ledger, a) - Escrow.Share(deal, a))
      && TotalFree(c'.ledger) == TotalFree(c.ledger) + deal.penalty
  {
    BackedCovers(p, c);
    Escrow.CoversOne(c.ledger, XE.Deals(c.x), msg.device);
    var deal := XE.Deals(c.x)[msg.device];
    assert deal.penalty <= Escrow.Share(deal, deal.device);
    ShareOfFree(deal);
    FreeReplyLedger(p, c, msg);
    hide Dispatch, MoveOf, Escrow.Covers, Backed, Escrow.Share, Unreserve, RepatriateReserved;
    PenaltyGoes(c.ledger, msg.client, deal.device, PenaltyTo(c, msg), deal.penalty);
  }

  /** Who gets the penalty when `msg` ends the order it names. */
  function PenaltyTo(c: Chain, msg: XcmpMessage): AccountId
    requires msg.Terminal() && msg.device in c.x.orders
  {
    var order := c.x.orders[msg.device];
    if c.now < order.until then msg.device else if msg.OrderDone? then msg.client else order.client
  }

  lemma FreeReplyLedger(p: ParaId, c: Chain, msg: XcmpMessage)
    requires msg.Terminal() && msg.device in c.x.orders && msg.device in c.x.devices
    requires c.x.orders[msg.device].fee == 0 && c.x.devices[msg.device].penalty <= Reserved(c.ledger, msg.device)
    ensures var c', deal := Dispatch(p, c, XHandle(msg)).chain, XE.DealOf(c.x, msg.device);
      && c'.s == c.s && MoveOf(p, c, XHandle(msg)).OnClient?
      && MoveOf(p, c, XHandle(msg)).act == Escrow.Settle(deal, msg.OrderDone?, c.now >= deal.until)
      && c'.ledger == RepatriateReserved(c.ledger, msg.device, PenaltyTo(c, msg), deal.penalty)
  {
    var penalty := c.x.devices[msg.device].penalty;
    PenaltyGoes(c.ledger, msg.client, msg.device, PenaltyTo(c, msg), penalty);
    hide Unreserve, RepatriateReserved;
  }

  lemma ShareOfFree(deal: Escrow.Deal)
    requires deal.fee == 0
    ensures forall a :: Escrow.Share(deal, a) == if a == deal.device then deal.penalty else 0
  {
  }

  /** With no fee to move, the calls of any ending move the penalty, and nothing else. */
  lemma PenaltyGoes(l: Ledger, who: AccountId, device: AccountId, to: AccountId, penalty: Balance)
    requires penalty <= Reserved(l, device)
    ensures Unreserve(l, who, 0) == l && RepatriateReserved(l, who, device, 0) == l
    ensures RepatriateReserved(l, device, device, penalty) == Unreserve(l, device, penalty)
    ensures var l' := RepatriateReserved(l, device, to, penalty);
      && (forall a :: Reserved(l', a) == Reserved(l, a) - if a == device then penalty else 0)
      && TotalFree(l') == TotalFree(l) + penalty
  {
    TotalFreeChanges(l, RepatriateReserved(l, device, to, penalty), to, penalty, to, 0);
  }

  /** A step keeps the books of a safe chain, and its soundness. */
  lemma SafeKeepsBooks(sys: System, t: Transition, c: ParaId, d: AccountId, penalty: Balance)
    requires Safe(sys, c, d, penalty) && Enabled(sys, t) && Acts(t, c) && !SelfOrder(c, CallAt(t, c))
    ensures var c' := Dispatch(c, sys.chains[c], CallAt(t, c)).chain;
      Sound(c, c') && SameBooks(c, sys.chains[c], c')
  {
    var chain, call := sys.chains[c], CallAt(t, c);
    hide Dispatch, Sound, SameBooks, Spendable, Slack, SelfOrder;
    if Faithful(chain, call) {
      assert Allowed(chain, call);
      DispatchKeepsBooks(c, chain, call);
    } else {
      var a := call.msg.device;
      assert IsToken(sys, t.e, c, a, false) && t.e in sys.net && !MatchesOrder(t.e, chain.x.orders[a], a);
      assert !TokenInv(sys, c, a, false);
      FreeReplyKeepsBooks(c, chain, call.msg);
    }
  }

  lemma SafeStep(sys: System, t: Transition, c: ParaId, d: AccountId, penalty: Balance)
    requires Safe(sys, c, d, penalty) && Enabled(sys, t) && Quiet(sys, t, c, false) && NoSelfOrder(t, c)
    ensures Safe(Next(sys, t), c, d, penalty)
    ensures SameBooks(c, sys.chains[c], Next(sys, t).chains[c])
  {
    var sys' := Next(sys, t);
    StepOfChain(sys, t, c);
    if Acts(t, c) {
      SafeKeepsBooks(sys, t, c, d, penalty);
    }
    forall a | a != d
      ensures TokenInv(sys', c, a, false)
    {
      StepKeepsToken(sys, t, c, a, false);
    }
    if TokenInv(sys, c, d, false) {
      StepKeepsToken(sys, t, c, d, false);
    } else {
      DearOrQuiet(sys, t, c, d, penalty);
    }
  }

  lemma DearOrQuiet(sys: System, t: Transition, c: ParaId, d: AccountId, penalty: Balance)
    requires c in sys.chains && Engaged(sys.chains[c]) && Enabled(sys, t) && Quiet(sys, t, c, false)
    requires NoSelfOrder(t, c) && Spendable(c, sys.chains[c]) <= penalty && Dear(sys.chains[c].x, d, penalty)
    ensures c in Next(sys, t).chains
    ensures TokenInv(Next(sys, t), c, d, false) || Dear(Next(sys, t).chains[c].x, d, penalty)
  {
    StepOfChain(sys, t, c);
    if Acts(t, c) && CallAt(t, c).OfClientPallet() {
      if RegistersReady(sys, t) && t.call.id == d {
        var sys' := Next(sys, t);
        assert sys'.net == sys.net && d !in sys'.chains[c].x.orders;
        assert forall q :: Held(sys', q, c, d) == Held(sys, q, c, d);
        assert forall e :: IsToken(sys', e, c, d, false) == IsToken(sys, e, c, d, false);
      } else {
        hide Next, Quiet, Spendable, Dear, XStep;
        StaysDear(c, sys.chains[c], CallAt(t, c), d, penalty);
      }
    }
  }

  lemma {:induction false} SafeNeverHarms(
    states: seq<System>, ts: seq<Transition>, c: ParaId, d: AccountId, penalty: Balance, n: nat)
    requires IsSegment(states, ts) && 0 < n <= |ts| && Safe(states[1], c, d, penalty)
    requires forall i {:trigger ts[i]} :: 0 < i < |ts| ==>
      Quiet(states[i], ts[i], c, false) && NoSelfOrder(ts[i], c)
    ensures Safe(states[n], c, d, penalty)
    ensures SameBooks(c, states[1].chains[c], states[n].chains[c])
  {
    if n > 1 {
      hide Next, Enabled, Quiet, NoSelfOrder, Sound, TokenInv, Spendable, Slack, Dear;
      SafeNeverHarms(states, ts, c, d, penalty, n - 1);
      SafeStep(states[n - 1], ts[n - 1], c, d, penalty);
    }
  }

  /** A registration is safe if nothing is outstanding, or no order can be paid for. */
  lemma RegistrationIsSafe(sys: System, t: Transition)
    requires RegistersReady(sys, t) && Inv(sys, t.p)
    requires Quiescent(sys, t.p, t.call.id, false) || Spendable(t.p, sys.chains[t.p]) <= t.call.penalty
    ensures Enabled(sys, t) && Safe(Next(sys, t), t.p, t.call.id, t.call.penalty)
    ensures SameBooks(t.p, sys.chains[t.p], Next(sys, t).chains[t.p])
  {
    var c, d := t.p, t.call.id;
    DispatchKeepsBooks(c, sys.chains[c], t.call);
    hide Sound, Slack, Spendable;
    var sys' := Next(sys, t);
    forall a | a != d || Quiescent(sys, c, d, false)
      ensures TokenInv(sys', c, a, false)
    {
      assert TokenInv(sys, c, a, false) && XE.Engaged(sys.chains[c].x) by {
        SoundIsEngaged(c, sys.chains[c]);
      }
      ActKeepsToken(sys, c, t.call, c, a, false);
    }
  }

  lemma SoundIsEngaged(p: ParaId, c: Chain)
    requires Sound(p, c)
    ensures Engaged(c)
  {
  }

  /** Exactness: on a ready registration in a network that keeps its invariant, harm to a client
      who is not the client of anything outstanding can follow if and only if something of the
      device's old order is outstanding, and there is money on the chain to pay the penalty and a fee. */
  lemma RegistrationHarmsIff(sys: System, t: Transition, client: AccountId)
    requires RegistersReady(sys, t) && Inv(sys, t.p)
    requires forall q :: q in sys.chains ==> SE.Engaged(sys.chains[q].s)
    requires Stranger(sys, t.p, t.call.id, client) && client != t.call.id
    ensures (exists states, ts :: Harms(sys, t, client, states, ts)) <==>
      !Quiescent(sys, t.p, t.call.id, false) && t.call.penalty < Spendable(t.p, sys.chains[t.p])
  {
    if !Quiescent(sys, t.p, t.call.id, false) && t.call.penalty < Spendable(t.p, sys.chains[t.p]) {
      EarlyRegistrationHarms(sys, t, client);
    } else {
      forall states, ts
        ensures !Harms(sys, t, client, states, ts)
      {
        SafeRegistrationNeverHarms(sys, t, client, states, ts);
      }
    }
  }

  lemma SafeRegistrationNeverHarms(
    sys: System, t: Transition, client: AccountId, states: seq<System>, ts: seq<Transition>)
    requires RegistersReady(sys, t) && Inv(sys, t.p)
    requires Quiescent(sys, t.p, t.call.id, false) || Spendable(t.p, sys.chains[t.p]) <= t.call.penalty
    ensures !Harms(sys, t, client, states, ts)
  {
    RegistrationIsSafe(sys, t);
    hide Next, Enabled, Quiescent, Slack, Spendable, Inv, Safe, Sound;
    if Harms(sys, t, client, states, ts) {
      SafeNeverHarms(states, ts, t.p, t.call.id, t.call.penalty, |ts|);
      assert false;
    }
  }
}
