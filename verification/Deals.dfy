/** Every deal is opened once, stays as it was while it is open, and is settled at most once,
    whatever the environment does. */
module DealHistories {
  import opened Common
  import opened Chains
  import opened Network
  import opened Runs
  import Escrow
  import XE = XChangeEscrow
  import SE = XChangeServiceEscrow

  /** The open deals of one of the two pallets of a chain. */
  ghost function DealsOf(p: ParaId, c: Chain, client: bool): Escrow.Deals {
    if client then XE.Deals(c.x) else SE.Deals(p, c.s)
  }

  function ActOf(move: Move, client: bool): Escrow.Action {
    match move
    case OnClient(act) => if client then act else Escrow.Stutter
    case OnService(act) => if client then Escrow.Stutter else act
    case Outside(_, _, _) => Escrow.Stutter
  }

  /** `deal` is an open deal of chain `p` in this state. */
  ghost predicate IsOpen(sys: System, p: ParaId, client: bool, deal: Escrow.Deal) {
    && p in sys.chains
    && var deals := DealsOf(p, sys.chains[p], client);
    deal.device in deals && deals[deal.device] == deal
  }

  /** `deal` was opened in step `i`, in time, and was an open deal from then to state `n`. */
  ghost predicate OpenedIn(
    states: seq<System>, ts: seq<Transition>, p: ParaId, client: bool, deal: Escrow.Deal, i: nat, n: nat)
    requires IsSegment(states, ts) && n <= |ts|
  {
    && i < n && p in states[i].chains
    && ActOf(MoveIn(states, ts, p, i), client) == Escrow.Open(deal)
    && states[i].chains[p].now < deal.until && states[i].chains[p].now + deal.wcd <= deal.until
    && (forall k :: i < k <= n ==> IsOpen(states[k], p, client, deal))
  }

  /** After a move, a deal is open because the move opened it, in time, or was open before. */
  lemma DealAfterMove(p: ParaId, c: Chain, move: Move, c': Chain, client: bool, d: AccountId)
    requires Chains.Records(p, c, move, c') && d in DealsOf(p, c', client)
    ensures var before, deal := DealsOf(p, c, client), DealsOf(p, c', client)[d];
      && deal.device == d
      && if ActOf(move, client).Open? && ActOf(move, client).deal.device == d then
           ActOf(move, client).deal == deal && c.now < deal.until && c.now + deal.wcd <= deal.until
         else d in before && before[d] == deal
  {
  }

  lemma StaysOpen(
    states: seq<System>, ts: seq<Transition>, p: ParaId, client: bool, deal: Escrow.Deal, i: nat, n: nat)
    requires IsSegment(states, ts) && 0 < n <= |ts| && IsOpen(states[n], p, client, deal)
    requires OpenedIn(states, ts, p, client, deal, i, n - 1)
    ensures OpenedIn(states, ts, p, client, deal, i, n)
  {
    hide IsOpen, MoveIn, ActOf, Next, Enabled;
  }

  /** A deal open after step `n - 1` was opened in that step or open before it. */
  lemma OpenedNowOrBefore(
    states: seq<System>, ts: seq<Transition>, p: ParaId, client: bool, d: AccountId, n: nat)
    requires IsHistory(states, ts) && 0 < n <= |ts| && p in states[0].chains
    requires p in states[n].chains && d in DealsOf(p, states[n].chains[p], client)
    ensures p in states[n - 1].chains
    ensures var deal := DealsOf(p, states[n].chains[p], client)[d];
      && deal.device == d && IsOpen(states[n], p, client, deal)
      && (OpenedIn(states, ts, p, client, deal, n - 1, n) || IsOpen(states[n - 1], p, client, deal))
  {
    hide Chains.Records, MoveAt, DealsOf, Engaged, Next, Enabled, Genesis;
    HistoryEngaged(states, ts, p, n - 1);
    HistoryStep(states, ts, p, n - 1);
    DealAfterMove(p, states[n - 1].chains[p], MoveIn(states, ts, p, n - 1), states[n].chains[p], client, d);
  }

  lemma NoDealsAtGenesis(sys: System, p: ParaId, client: bool)
    requires Genesis(sys) && p in sys.chains
    ensures DealsOf(p, sys.chains[p], client) == map[]
  {
  }

  lemma {:induction false} LiveWasOpened(
    states: seq<System>, ts: seq<Transition>, p: ParaId, client: bool, d: AccountId, n: nat)
    returns (i: nat)
    requires IsHistory(states, ts) && n <= |ts| && p in states[0].chains
    requires p in states[n].chains && d in DealsOf(p, states[n].chains[p], client)
    ensures DealsOf(p, states[n].chains[p], client)[d].device == d
    ensures OpenedIn(states, ts, p, client, DealsOf(p, states[n].chains[p], client)[d], i, n)
  {
    hide DealsOf, OpenedIn, Next, Enabled, Genesis;
    if n == 0 {
      NoDealsAtGenesis(states[0], p, client);
      assert false;
    } else {
      var deal := DealsOf(p, states[n].chains[p], client)[d];
      OpenedNowOrBefore(states, ts, p, client, d, n);
      i := n - 1;
      if !OpenedIn(states, ts, p, client, deal, n - 1, n) {
        i := LiveWasOpened(states, ts, p, client, d, n - 1);
        StaysOpen(states, ts, p, client, deal, i, n);
      }
    }
  }

  /** A move settles an open deal, as late as it is, or leaves every open deal as it was. */
  lemma SettlementIsOpen(p: ParaId, c: Chain, move: Move, c': Chain, client: bool)
    requires Chains.Records(p, c, move, c')
    ensures var act, before, after := ActOf(move, client), DealsOf(p, c, client), DealsOf(p, c', client);
      if act.Settle? then
        && act.deal.device in before && before[act.deal.device] == act.deal && act.late == (c.now >= act.deal.until)
        && after == before - {act.deal.device}
      else forall d :: d in before ==> d in after && after[d] == before[d]
  {
  }

  /** Every settlement settles a deal opened earlier with the same client, device, fee,
      penalty and deadline, which was open all the while and is no longer. */
  lemma SettledWasOpened(
    states: seq<System>, ts: seq<Transition>, p: ParaId, client: bool, n: nat)
    returns (i: nat)
    requires IsHistory(states, ts) && n < |ts| && p in states[0].chains
    requires p in states[n].chains && ActOf(MoveIn(states, ts, p, n), client).Settle?
    ensures var act := ActOf(MoveIn(states, ts, p, n), client);
      && OpenedIn(states, ts, p, client, act.deal, i, n)
      && p in states[n + 1].chains && act.deal.device !in DealsOf(p, states[n + 1].chains[p], client)
      && act.late == (states[n].chains[p].now >= act.deal.until)
  {
    HistoryEngaged(states, ts, p, n);
    HistoryStep(states, ts, p, n);
    SettlementIsOpen(p, states[n].chains[p], MoveIn(states, ts, p, n), states[n + 1].chains[p], client);
    hide Next, Enabled, DealsOf, Chains.Records, MoveAt, ActOf, Engaged, Genesis, OpenedIn;
    i := LiveWasOpened(states, ts, p, client, ActOf(MoveIn(states, ts, p, n), client).deal.device, n);
  }

  /** Step `k` settles `deal`, which is gone then. */
  ghost predicate SettledIn(
    states: seq<System>, ts: seq<Transition>, p: ParaId, client: bool, deal: Escrow.Deal, k: nat)
    requires IsSegment(states, ts) && k < |ts|
  {
    && p in states[k].chains && p in states[k + 1].chains
    && ActOf(MoveIn(states, ts, p, k), client).Settle? && ActOf(MoveIn(states, ts, p, k), client).deal == deal
    && deal.device !in DealsOf(p, states[k + 1].chains[p], client)
  }

  /** An open deal is settled in the next step or stays open. */
  lemma OpenGoesOn(
    states: seq<System>, ts: seq<Transition>, p: ParaId, client: bool, deal: Escrow.Deal, n: nat)
    requires IsHistory(states, ts) && n < |ts| && p in states[0].chains && IsOpen(states[n], p, client, deal)
    ensures SettledIn(states, ts, p, client, deal, n) || IsOpen(states[n + 1], p, client, deal)
  {
    hide Chains.Records, MoveAt, Engaged, Next, Enabled, Genesis;
    HistoryEngaged(states, ts, p, n);
    HistoryStep(states, ts, p, n);
    SettlementIsOpen(p, states[n].chains[p], MoveIn(states, ts, p, n), states[n + 1].chains[p], client);
    DealDevices(p, states[n].chains[p], client);
  }

  lemma DealDevices(p: ParaId, c: Chain, client: bool)
    ensures forall d :: d in DealsOf(p, c, client) ==> DealsOf(p, c, client)[d].device == d
  {
  }

  lemma OpeningOpens(states: seq<System>, ts: seq<Transition>, p: ParaId, client: bool, deal: Escrow.Deal, i: nat)
    requires IsHistory(states, ts) && i < |ts| && p in states[0].chains && p in states[i].chains
    requires ActOf(MoveIn(states, ts, p, i), client) == Escrow.Open(deal)
    ensures OpenedIn(states, ts, p, client, deal, i, i + 1)
  {
    hide MoveAt, Engaged, Next, Enabled, Genesis;
    HistoryEngaged(states, ts, p, i);
    HistoryStep(states, ts, p, i);
  }

  lemma OpenedIsOpen(
    states: seq<System>, ts: seq<Transition>, p: ParaId, client: bool, deal: Escrow.Deal, i: nat, n: nat)
    requires IsSegment(states, ts) && n <= |ts| && OpenedIn(states, ts, p, client, deal, i, n)
    ensures IsOpen(states[n], p, client, deal)
  {
    hide IsOpen, MoveIn, ActOf, Next, Enabled;
  }

  /** The fate of every deal opened: at state `n` it is still open, or step `k` settled it. */
  lemma {:induction false} OpenedIsSettled(
    states: seq<System>, ts: seq<Transition>, p: ParaId, client: bool, deal: Escrow.Deal, i: nat, n: nat)
    returns (k: nat)
    requires IsHistory(states, ts) && i < n <= |ts| && p in states[0].chains && p in states[i].chains
    requires ActOf(MoveIn(states, ts, p, i), client) == Escrow.Open(deal)
    ensures i < k <= n && OpenedIn(states, ts, p, client, deal, i, k)
    ensures k < n ==> SettledIn(states, ts, p, client, deal, k)
  {
    hide Next, Enabled, Genesis, SettledIn, OpenedIn, IsOpen, DealsOf, MoveIn, ActOf;
    if n == i + 1 {
      OpeningOpens(states, ts, p, client, deal, i);
      k := n;
    } else {
      k := OpenedIsSettled(states, ts, p, client, deal, i, n - 1);
      if k == n - 1 {
        OpenedIsOpen(states, ts, p, client, deal, i, k);
        OpenGoesOn(states, ts, p, client, deal, k);
        if !SettledIn(states, ts, p, client, deal, k) {
          StaysOpen(states, ts, p, client, deal, i, n);
          k := n;
        }
      }
    }
  }

  /** No deal is settled twice: up to the step that settles it, it was open all the while, and
      no step between the two settled it. */
  lemma OpenedIsSettledOnce(
    states: seq<System>, ts: seq<Transition>, p: ParaId, client: bool, deal: Escrow.Deal, i: nat, n: nat)
    returns (k: nat)
    requires IsHistory(states, ts) && i < n <= |ts| && p in states[0].chains && p in states[i].chains
    requires ActOf(MoveIn(states, ts, p, i), client) == Escrow.Open(deal)
    ensures i < k <= n && OpenedIn(states, ts, p, client, deal, i, k)
    ensures forall m :: i < m < k ==> !SettledIn(states, ts, p, client, deal, m)
    ensures k < n ==> SettledIn(states, ts, p, client, deal, k)
  {
    k := OpenedIsSettled(states, ts, p, client, deal, i, n);
    hide Next, Enabled, Genesis, MoveIn, ActOf;
    forall m | i < m < k
      ensures !SettledIn(states, ts, p, client, deal, m)
    {
      assert IsOpen(states[m + 1], p, client, deal);
    }
  }
}
