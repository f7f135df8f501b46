/** Whole runs of the network: what holds in every state of one, and over all of it. */
module Runs {
  import opened Common
  import opened Balances
  import opened Chains
  import opened Network
  import Tokens
  import Escrow
  import X = XChange
  import S = XChangeService
  import XE = XChangeEscrow
  import SE = XChangeServiceEscrow

  predicate Acts(t: Transition, p: ParaId) {
    match t
    case Local(q, _) => p == q
    case Deliver(e, _, _) => p == e.to
    case Lose(_) => false
  }

  /** The call a chain executes in a step. */
  function CallAt(t: Transition, p: ParaId): Call
    requires Acts(t, p)
  {
    match t
    case Local(_, call) => call
    case Deliver(e, toService, answer) => Handling(e, toService, answer)
  }

  /** A chain that acts in a step goes where its call takes it; any other stays. */
  lemma StepOfChain(sys: System, t: Transition, p: ParaId)
    requires Enabled(sys, t) && p in sys.chains
    ensures p in Next(sys, t).chains
    ensures Next(sys, t).chains[p] ==
      if Acts(t, p) then Dispatch(p, sys.chains[p], CallAt(t, p)).chain else sys.chains[p]
  {
  }

  /** What the escrow of chain `p` sees of a step. */
  function MoveAt(sys: System, t: Transition, p: ParaId): Move
    requires p in sys.chains
  {
    if Acts(t, p) then MoveOf(p, sys.chains[p], CallAt(t, p)) else OnClient(Escrow.Stutter)
  }

  lemma StepKeepsToken(sys: System, t: Transition, c: ParaId, d: AccountId, dead: bool)
    requires c in sys.chains && XE.Engaged(sys.chains[c].x) && TokenInv(sys, c, d, dead)
    requires Enabled(sys, t) && Quiet(sys, t, c, dead)
    ensures TokenInv(Next(sys, t), c, d, dead)
  {
    match t
    case Local(p, call) =>
      ActKeepsToken(sys, p, call, c, d, dead);
    case Deliver(e, toService, answer) =>
      Tokens.RemovalKeepsToken(sys, e, c, d, dead);
      var mid := Tokens.Without(sys, e);
      ActKeepsToken(mid, e.to, Handling(e, toService, answer), c, d, dead);
    case Lose(e) =>
      Tokens.RemovalKeepsToken(sys, e, c, d, dead);
  }

  lemma ActKeepsToken(sys: System, p: ParaId, call: Call, c: ParaId, d: AccountId, dead: bool)
    requires p in sys.chains && c in sys.chains && TokenInv(sys, c, d, dead)
    requires XE.Engaged(sys.chains[c].x) && Allowed(sys.chains[p], call)
    requires p == c && call.XRegister? && call.onoff && call.id == d && d !in sys.chains[c].x.orders ==>
      Quiescent(sys, c, d, dead)
    requires p == c && call.XHandle? && call.msg.Terminal() && call.msg.device == d ==> Quiescent(sys, c, d, dead)
    requires (call.SHandle? && call.msg.NewOrder? && call.sender == c != p && call.msg.order.device == d
              && sys.chains[p].now < call.msg.order.until) ==>
      && Quiescent(sys, c, d, dead) && !X.IsReady(sys.chains[c].x, d)
      && (d in sys.chains[c].x.orders ==>
        var order := sys.chains[c].x.orders[d];
        call.msg == NewOrder(order.client, order.Convert(d)))
    ensures TokenInv(Act(sys, p, call), c, d, dead)
  {
    if call.OfClientPallet() {
      Tokens.ClientCallKeepsToken(sys, p, call, c, d, dead);
    } else if call.OfServicePallet() {
      Tokens.ServiceCallKeepsToken(sys, p, call, c, d, dead);
    } else {
      Tokens.FewerTokensKeep(sys, Act(sys, p, call), c, d, dead);
    }
  }

  /** Refinement: under the assumption of chain `c` alone, each step is one exact move of the
      escrow of `c` if `c` acts in it, and nothing for it otherwise; and the invariant carries over. */
  lemma StepRefines(sys: System, t: Transition, c: ParaId)
    requires Inv(sys, c) && Enabled(sys, t) && Quiet(sys, t, c, false)
    ensures Inv(Next(sys, t), c)
    ensures Chains.Moves(c, sys.chains[c], MoveAt(sys, t, c), Next(sys, t).chains[c])
  {
    var sys' := Next(sys, t);
    StepOfChain(sys, t, c);
    if Acts(t, c) {
      RepliesAreFaithful(sys, t, c);
      hide Next, Enabled, CallAt, TokenInv, Chains.Moves;
      DispatchMoves(c, sys.chains[c], CallAt(t, c));
    }
    forall d
      ensures TokenInv(sys', c, d, false)
    {
      StepKeepsToken(sys, t, c, d, false);
    }
  }

  lemma RepliesAreFaithful(sys: System, t: Transition, c: ParaId)
    requires Inv(sys, c) && Enabled(sys, t) && Acts(t, c)
    ensures Allowed(sys.chains[c], CallAt(t, c)) && Faithful(sys.chains[c], CallAt(t, c))
  {
    if t.Deliver? && !t.toService && t.e.msg.Terminal() {
      assert TokenInv(sys, c, t.e.msg.device, false) && IsToken(sys, t.e, c, t.e.msg.device, false);
    }
  }

  // Runs

  /** No pallet has been used yet; clocks and ledgers are arbitrary. */
  ghost predicate Genesis(sys: System) {
    && sys.net == multiset{}
    && forall p :: p in sys.chains ==>
      sys.chains[p].x == X.State(map[], map[], []) && sys.chains[p].s == S.State(map[], map[], [])
  }

  /** `ts` are the steps between consecutive `states`. */
  ghost predicate IsSegment(states: seq<System>, ts: seq<Transition>) {
    && |states| == |ts| + 1
    && forall i {:trigger ts[i]} :: 0 <= i < |ts| ==>
      Enabled(states[i], ts[i]) && states[i + 1] == Next(states[i], ts[i])
  }

  lemma ExtendSegment(states: seq<System>, ts: seq<Transition>, t: Transition)
    requires IsSegment(states, ts) && Enabled(states[|ts|], t)
    ensures IsSegment(states + [Next(states[|ts|], t)], ts + [t])
  {
    hide Enabled, Next;
  }

  /** The move of chain `p`'s escrow in step `i`. */
  ghost function MoveIn(states: seq<System>, ts: seq<Transition>, p: ParaId, i: nat): Move
    requires IsSegment(states, ts) && i < |ts| && p in states[i].chains
  {
    MoveAt(states[i], ts[i], p)
  }

  /** A segment from the genesis, whatever the environment does. */
  ghost predicate IsHistory(states: seq<System>, ts: seq<Transition>) {
    IsSegment(states, ts) && Genesis(states[0])
  }

  /** One under the environment assumption of chain `p`: the devices registered there wait. */
  ghost predicate IsRun(states: seq<System>, ts: seq<Transition>, p: ParaId) {
    && IsHistory(states, ts) && p in states[0].chains
    && forall i {:trigger ts[i]} :: 0 <= i < |ts| ==> Quiet(states[i], ts[i], p, false)
  }

  lemma GenesisIsFresh(sys: System, p: ParaId)
    requires Genesis(sys)
    ensures sys.net == multiset{}
    ensures p in sys.chains ==>
      sys.chains[p].x == X.State(map[], map[], []) && sys.chains[p].s == S.State(map[], map[], [])
  {
  }

  lemma GenesisInv(sys: System, p: ParaId)
    requires Genesis(sys) && p in sys.chains
    ensures Inv(sys, p)
  {
    assert XE.Deals(sys.chains[p].x) == map[] && SE.Deals(p, sys.chains[p].s) == map[];
    forall a
      ensures Slack(p, sys.chains[p], a) >= 0
    {
      assert Escrow.Shares(map[], a) == map[];
    }
  }

  /** Without any assumption, in every state of every history: an order has an engaged device,
      on every chain and in both pallets. */
  lemma {:induction false} HistoryEngaged(states: seq<System>, ts: seq<Transition>, p: ParaId, n: nat)
    requires IsHistory(states, ts) && n <= |ts| && p in states[0].chains
    ensures p in states[n].chains && Engaged(states[n].chains[p])
  {
    hide Next, Enabled;
    if n > 0 {
      HistoryEngaged(states, ts, p, n - 1);
      HistoryStep(states, ts, p, n - 1);
    }
  }

  /** Nor is any needed for each step to be one move of the book of open deals. */
  lemma HistoryStep(states: seq<System>, ts: seq<Transition>, p: ParaId, i: nat)
    requires IsSegment(states, ts) && i < |ts| && p in states[i].chains && Engaged(states[i].chains[p])
    ensures p in states[i + 1].chains && Engaged(states[i + 1].chains[p])
    ensures Chains.Records(p, states[i].chains[p], MoveIn(states, ts, p, i), states[i + 1].chains[p])
  {
    StepOfChain(states[i], ts[i], p);
    if Acts(ts[i], p) {
      hide Next, Dispatch, MoveOf, Engaged, Chains.Records;
      DispatchRecords(p, states[i].chains[p], CallAt(ts[i], p));
    }
  }

  /** The invariant holds in every state of every run, whatever devices do on other chains:
      books backed, devices engaged, and at most one token of an order, which matches it. */
  lemma {:induction false} RunInv(states: seq<System>, ts: seq<Transition>, p: ParaId, n: nat)
    requires IsRun(states, ts, p) && n <= |ts|
    ensures Inv(states[n], p)
  {
    hide Next, Enabled, Inv, Quiet, Genesis;
    if n == 0 {
      GenesisInv(states[0], p);
    } else {
      RunInv(states, ts, p, n - 1);
      StepRefines(states[n - 1], ts[n - 1], p);
    }
  }

  /** So if the devices of all chains wait, it holds of all chains. */
  lemma RunInvEverywhere(states: seq<System>, ts: seq<Transition>, n: nat)
    requires IsHistory(states, ts) && n <= |ts|
    requires forall p :: p in states[0].chains ==> IsRun(states, ts, p)
    ensures states[n].chains.Keys == states[0].chains.Keys
    ensures forall p :: p in states[n].chains ==> Inv(states[n], p)
  {
    HistoryKeepsChains(states, ts, n);
    forall p | p in states[n].chains
      ensures Inv(states[n], p)
    {
      RunInv(states, ts, p, n);
    }
  }

  lemma {:induction false} HistoryKeepsChains(states: seq<System>, ts: seq<Transition>, n: nat)
    requires IsSegment(states, ts) && n <= |ts|
    ensures states[n].chains.Keys == states[0].chains.Keys
  {
    if n > 0 {
      HistoryKeepsChains(states, ts, n - 1);
      assert Enabled(states[n - 1], ts[n - 1]);
    }
  }

  /** If the devices of chain `c` wait even for orders that can no longer be taken, then counting
      those too there is at most one token, in every state. */
  lemma {:induction false} RunOneToken(states: seq<System>, ts: seq<Transition>, n: nat, c: ParaId, d: AccountId)
    requires IsHistory(states, ts) && n <= |ts| && c in states[0].chains
    requires forall i {:trigger ts[i]} :: 0 <= i < |ts| ==> Quiet(states[i], ts[i], c, true)
    ensures c in states[n].chains && TokenInv(states[n], c, d, true)
  {
    HistoryEngaged(states, ts, c, n);
    if n > 0 {
      hide Next, Enabled, TokenInv, Quiet;
      RunOneToken(states, ts, n - 1, c, d);
      HistoryEngaged(states, ts, c, n - 1);
      StepKeepsToken(states[n - 1], ts[n - 1], c, d, true);
    }
  }

  lemma RunMoves(states: seq<System>, ts: seq<Transition>, p: ParaId, i: nat)
    requires IsRun(states, ts, p) && i < |ts|
    ensures p in states[i].chains && p in states[i + 1].chains
    ensures Chains.Moves(p, states[i].chains[p], MoveIn(states, ts, p, i), states[i + 1].chains[p])
  {
    RunInv(states, ts, p, i);
    hide Next, Enabled, Quiet;
    StepRefines(states[i], ts[i], p);
  }

  /** Payoffs to `a` on chain `p` over the first `n` steps: settlements and outside transfers. */
  ghost function Payoffs(states: seq<System>, ts: seq<Transition>, p: ParaId, a: AccountId, n: nat): int
    requires IsSegment(states, ts) && n <= |ts|
  {
    if n == 0 then 0
    else
      Payoffs(states, ts, p, a, n - 1) +
      if p in states[n - 1].chains then MoveIn(states, ts, p, n - 1).Payoff(a) else 0
  }

  /** What half-finished placements left reserved of `a` over the first `n` steps. */
  ghost function StrandedSum(states: seq<System>, ts: seq<Transition>, p: ParaId, a: AccountId, n: nat): nat
    requires IsSegment(states, ts) && n <= |ts|
  {
    if n == 0 then 0
    else
      StrandedSum(states, ts, p, a, n - 1) +
      if p in states[n - 1].chains then MoveIn(states, ts, p, n - 1).Stranded(a) else 0
  }

  lemma GenesisSlack(sys: System, p: ParaId, a: AccountId)
    requires Genesis(sys) && p in sys.chains
    ensures Slack(p, sys.chains[p], a) == Reserved(sys.chains[p].ledger, a)
  {
    assert XE.Deals(sys.chains[p].x) == map[] && SE.Deals(p, sys.chains[p].s) == map[];
    assert Escrow.Shares(map[], a) == map[];
  }

  lemma {:induction false} RunKeepsBooks(states: seq<System>, ts: seq<Transition>, p: ParaId, a: AccountId, n: nat)
    requires IsRun(states, ts, p) && n <= |ts|
    ensures p in states[n].chains
    ensures var c, c' := states[0].chains[p], states[n].chains[p];
      && Wealth(c'.ledger, a) == Wealth(c.ledger, a) + Payoffs(states, ts, p, a, n)
      && Slack(p, c', a) == Reserved(c.ledger, a) + StrandedSum(states, ts, p, a, n)
  {
    hide Chains.Moves, MoveAt, Sound, Slack, Wealth, Next, Enabled, Quiet, Genesis;
    if n == 0 {
      GenesisSlack(states[0], p, a);
    } else {
      RunKeepsBooks(states, ts, p, a, n - 1);
      RunMoves(states, ts, p, n - 1);
      MovesKeepBooks(p, states[n - 1].chains[p], MoveIn(states, ts, p, n - 1), states[n].chains[p], a);
    }
  }

  /** Reconciliation and full backing: an account owns what it started with plus its payoffs,
      and has reserved what it started with, plus what its open deals need, plus what was stranded. */
  lemma RunReconciles(states: seq<System>, ts: seq<Transition>, p: ParaId, a: AccountId, n: nat)
    requires IsRun(states, ts, p) && n <= |ts|
    ensures p in states[n].chains
    ensures var l, l' := states[0].chains[p].ledger, states[n].chains[p].ledger;
      && Wealth(l', a) == Wealth(l, a) + Payoffs(states, ts, p, a, n)
      && Reserved(l', a) == Reserved(l, a)
        + Escrow.Locked(XE.Deals(states[n].chains[p].x), a)
        + Escrow.Locked(SE.Deals(p, states[n].chains[p].s), a)
        + StrandedSum(states, ts, p, a, n)
  {
    RunKeepsBooks(states, ts, p, a, n);
  }

  /** An order on chain `p` by which one account is both client and device; a foreign one
      reserves nothing and does not count. */
  predicate SelfOrder(p: ParaId, call: Call) {
    match call
    case XOrder(who, order) => who == order.device
    case SOrder(who, order, _) => who == order.device
    case SHandle(sender, msg, _) => sender == p && msg.NewOrder? && msg.client == msg.order.device
    case _ => false
  }

  lemma StrandingNeedsSelfOrder(p: ParaId, c: Chain, call: Call, a: AccountId)
    requires !SelfOrder(p, call)
    ensures MoveOf(p, c, call).Stranded(a) == 0
  {
  }

  /** Exact backing: as long as nobody orders from himself, what is reserved beyond the start
      is exactly what the open deals need. */
  lemma {:induction false} RunStrandsNothing(
    states: seq<System>, ts: seq<Transition>, p: ParaId, a: AccountId, n: nat)
    requires IsRun(states, ts, p) && n <= |ts|
    requires forall i {:trigger ts[i]} :: 0 <= i < n && Acts(ts[i], p) ==> !SelfOrder(p, CallAt(ts[i], p))
    ensures StrandedSum(states, ts, p, a, n) == 0
    ensures p in states[n].chains
    ensures Reserved(states[n].chains[p].ledger, a) == Reserved(states[0].chains[p].ledger, a)
      + Escrow.Locked(XE.Deals(states[n].chains[p].x), a)
      + Escrow.Locked(SE.Deals(p, states[n].chains[p].s), a)
  {
    hide Acts, SelfOrder, CallAt, MoveOf, Next, Enabled, Quiet, Genesis;
    if n > 0 {
      RunInv(states, ts, p, n - 1);
      RunStrandsNothing(states, ts, p, a, n - 1);
      if Acts(ts[n - 1], p) {
        StrandingNeedsSelfOrder(p, states[n - 1].chains[p], CallAt(ts[n - 1], p), a);
      }
      assert MoveIn(states, ts, p, n - 1).Stranded(a) == 0;
    }
    RunReconciles(states, ts, p, a, n);
  }
}
