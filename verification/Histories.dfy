/** What the past of a run must have been. */
module Histories {
  import opened Common
  import opened Balances
  import opened Chains
  import opened Network
  import opened Runs
  import opened DealHistories
  import Escrow
  import Guarantees
  import Replies
  import Tokens
  import X = XChange
  import S = XChangeService
  import XE = XChangeEscrow
  import SE = XChangeServiceEscrow

  // Issuance over a run

  /** The issuance of every chain is the same in all states of any run, whatever the
      environment does. */
  lemma {:induction false} SegmentConserves(states: seq<System>, ts: seq<Transition>, p: ParaId, n: nat)
    requires IsSegment(states, ts) && n <= |ts| && p in states[0].chains
    ensures p in states[n].chains
    ensures Issuance(states[n].chains[p].ledger) == Issuance(states[0].chains[p].ledger)
  {
    if n > 0 {
      SegmentConserves(states, ts, p, n - 1);
      StepOfChain(states[n - 1], ts[n - 1], p);
      if Acts(ts[n - 1], p) {
        Guarantees.DispatchConserves(p, states[n - 1].chains[p], CallAt(ts[n - 1], p), 0);
      }
    }
  }

  // Deadlines on the service side, for local and foreign orders alike

  /** An order is there in `s'` because it was there before, or because it was placed just
      now, in time; a device became Accepted only in time. */
  ghost predicate InTime(s: S.State, now: Moment, s': S.State, d: AccountId) {
    d in s'.orders ==>
      && d in s.devices && d in s'.devices && s'.devices[d].wcd == s.devices[d].wcd
      && var order := s'.orders[d];
      && (if d in s.orders then order == s.orders[d]
          else now < order.until && now + s.devices[d].wcd <= order.until)
      && (s'.devices[d].state == DeviceState.Accepted ==>
        now < order.until || (d in s.orders && s.devices[d].state == DeviceState.Accepted))
  }

  lemma ReceiveInTime(
    p: ParaId, l: Ledger, s: S.State, now: Moment, order: Order, device: AccountId, answer: Option<DeviceState>,
    d: AccountId)
    requires SE.Engaged(s) && S.HookAnswer(answer)
    ensures InTime(s, now, S.ReceiveStep(p, l, s, now, order, device, answer).state, d)
  {
    hide Reserve;
  }

  lemma RejectInTime(
    p: ParaId, l: Ledger, s: S.State, now: Moment, device: AccountId, state: DeviceState, onoff: bool, d: AccountId)
    requires SE.Engaged(s) && device in s.devices
    ensures InTime(s, now, S.RejectStep(p, l, s, now, device, state, onoff).state, d)
  {
  }

  lemma AcceptInTime(
    p: ParaId, l: Ledger, s: S.State, now: Moment, id: AccountId, reject: bool, onoff: bool, d: AccountId)
    requires SE.Engaged(s)
    ensures InTime(s, now, S.AcceptStep(p, l, s, now, id, reject, onoff).state, d)
  {
    hide S.RejectStep;
    if reject && id in s.devices {
      RejectInTime(p, l, s, now, id, OnOff(onoff), onoff, d);
    }
  }

  lemma CancelInTime(p: ParaId, l: Ledger, s: S.State, now: Moment, who: AccountId, device: AccountId, d: AccountId)
    requires SE.Engaged(s)
    ensures InTime(s, now, S.CancelStep(p, l, s, now, who, device).state, d)
  {
    hide S.RejectStep;
    if device in s.devices {
      RejectInTime(p, l, s, now, device, s.devices[device].state, false, d);
    }
  }

  lemma DoneInTime(p: ParaId, l: Ledger, s: S.State, now: Moment, id: AccountId, onoff: bool, d: AccountId)
    requires SE.Engaged(s)
    ensures InTime(s, now, S.DoneStep(p, l, s, now, id, onoff).state, d)
  {
  }

  lemma ServiceCallInTime(p: ParaId, c: Chain, call: Call, d: AccountId)
    requires SE.Engaged(c.s) && Allowed(c, call) && call.OfServicePallet()
    ensures InTime(c.s, c.now, SStep(p, c, call).state, d)
  {
    hide S.ReceiveStep, S.CancelStep, S.AcceptStep, S.DoneStep;
    var l, s, now := c.ledger, c.s, c.now;
    match call
    case SOrder(who, order, answer) =>
      ReceiveInTime(p, l, s, now, order.Convert(who).(paraid := p), order.device, answer, d);
    case SHandle(sender, msg, answer) =>
      if msg.NewOrder? {
        ReceiveInTime(p, l, s, now, msg.order.Convert(msg.client).(paraid := sender), msg.order.device, answer, d);
      }
    case SCancel(who, device) => CancelInTime(p, l, s, now, who, device, d);
    case SAccept(id, reject, onoff) => AcceptInTime(p, l, s, now, id, reject, onoff, d);
    case SDone(id, onoff) => DoneInTime(p, l, s, now, id, onoff, d);
    case SRegister(_, _, _, _) =>
    case SSetState(_, _) =>
    case SKilled(_) =>
  }

  /** `order` has been the order of `d` on chain `p` from the step after `i` to state `n`. */
  ghost predicate HeldSince(states: seq<System>, p: ParaId, d: AccountId, order: Order, i: nat, n: nat)
    requires n < |states|
  {
    i < n && p in states[i].chains
    && forall k :: i < k <= n ==>
      p in states[k].chains && d in states[k].chains[p].s.orders && states[k].chains[p].s.orders[d] == order
  }

  predicate IsAccepted(c: Chain, d: AccountId) {
    d in c.s.orders && d in c.s.devices && c.s.devices[d].state == DeviceState.Accepted
  }

  lemma ServiceStepOfRun(states: seq<System>, ts: seq<Transition>, p: ParaId, d: AccountId, n: nat)
    requires IsHistory(states, ts) && n < |ts| && p in states[0].chains
    ensures p in states[n].chains && p in states[n + 1].chains
    ensures InTime(states[n].chains[p].s, states[n].chains[p].now, states[n + 1].chains[p].s, d)
    ensures d in states[n].chains[p].s.orders ==> d in states[n].chains[p].s.devices
  {
    HistoryEngaged(states, ts, p, n);
    StepOfChain(states[n], ts[n], p);
    hide SStep;
    if Acts(ts[n], p) && CallAt(ts[n], p).OfServicePallet() {
      ServiceCallInTime(p, states[n].chains[p], CallAt(ts[n], p), d);
    }
  }

  /** Every order a device holds was placed when its deadline was still ahead, by at least the
      device's working time as it is still registered. */
  lemma {:induction false} HeldWasPlacedInTime(
    states: seq<System>, ts: seq<Transition>, p: ParaId, d: AccountId, n: nat)
    returns (i: nat)
    requires IsHistory(states, ts) && n <= |ts| && p in states[0].chains
    requires p in states[n].chains && d in states[n].chains[p].s.orders
    ensures var order := states[n].chains[p].s.orders[d];
      && HeldSince(states, p, d, order, i, n) && d !in states[i].chains[p].s.orders
      && d in states[n].chains[p].s.devices
      && states[i].chains[p].now < order.until
      && states[i].chains[p].now + states[n].chains[p].s.devices[d].wcd <= order.until
  {
    hide Next, Enabled, Genesis;
    if n == 0 {
      GenesisIsFresh(states[0], p);
      assert false;
    } else {
      ServiceStepOfRun(states, ts, p, d, n - 1);
      if d in states[n - 1].chains[p].s.orders {
        i := HeldWasPlacedInTime(states, ts, p, d, n - 1);
      } else {
        i := n - 1;
      }
    }
  }

  /** Every order a device works on was accepted strictly before its deadline, by the hook or
      by the device. */
  lemma {:induction false} AcceptedInTime(
    states: seq<System>, ts: seq<Transition>, p: ParaId, d: AccountId, n: nat)
    returns (j: nat)
    requires IsHistory(states, ts) && n <= |ts| && p in states[0].chains
    requires p in states[n].chains && IsAccepted(states[n].chains[p], d)
    ensures var order := states[n].chains[p].s.orders[d];
      && HeldSince(states, p, d, order, j, n)
      && !IsAccepted(states[j].chains[p], d) && (forall k :: j < k <= n ==> IsAccepted(states[k].chains[p], d))
      && states[j].chains[p].now < order.until
  {
    hide Next, Enabled, Genesis;
    if n == 0 {
      GenesisIsFresh(states[0], p);
      assert false;
    } else {
      ServiceStepOfRun(states, ts, p, d, n - 1);
      if IsAccepted(states[n - 1].chains[p], d) {
        j := AcceptedInTime(states, ts, p, d, n - 1);
      } else {
        j := n - 1;
      }
    }
  }

  // No settlement without cause

  /** The call that sends a terminal message: `done` for an OrderDone; for an OrderReject the
      device's rejecting `accept`, or the client's `cancel` after the deadline. */
  predicate Causes(c: Chain, call: Call, msg: XcmpMessage)
    requires msg.Terminal()
  {
    if msg.OrderDone? then call == SDone(msg.device, msg.onoff) && IsAccepted(c, msg.device)
    else
      || call == SAccept(msg.device, true, msg.onoff)
      || (call == SCancel(msg.client, msg.device) && !msg.onoff
          && msg.device in c.s.orders && c.now >= c.s.orders[msg.device].until)
  }

  /** A terminal message leaves a chain only for its cause, by the end of a foreign order held
      there, and names that order's client. */
  lemma TerminalHasCause(p: ParaId, c: Chain, call: Call)
    requires var sent := Dispatch(p, c, call).sent; sent.Some? && sent.value.msg.Terminal()
    ensures var sent := Dispatch(p, c, call).sent.value;
      && Causes(c, call, sent.msg) && sent.msg.device in c.s.orders
      && c.s.orders[sent.msg.device].paraid == sent.dest != p
      && c.s.orders[sent.msg.device].client == sent.msg.client
  {
    hide Reserve, Unreserve, RepatriateReserved;
  }

  /** A live order of the client pallet survives a step unchanged, or is gone; a device that
      was not ready has taken no other. */
  lemma ClientOrderStays(sys: System, t: Transition, c: ParaId, d: AccountId)
    requires Enabled(sys, t) && c in sys.chains && XE.Engaged(sys.chains[c].x) && !X.IsReady(sys.chains[c].x, d)
    ensures c in Next(sys, t).chains
    ensures var x, x' := sys.chains[c].x, Next(sys, t).chains[c].x;
      d in x'.orders ==> d in x.orders && x'.orders[d] == x.orders[d]
  {
    hide XStep, SStep;
    StepOfChain(sys, t, c);
    hide Next;
    if Acts(t, c) && CallAt(t, c).OfClientPallet() {
      Tokens.ClientShape(sys.chains[c], CallAt(t, c), d);
    }
  }

  /** The step is the cause of `e`. */
  predicate CausedBy(sys: System, t: Transition, e: Envelope)
    requires e.msg.Terminal()
  {
    t.Local? && t.p == e.from && Held(sys, e.from, e.to, e.msg.device) && Causes(sys.chains[e.from], t.call, e.msg)
  }

  /** The order that `e` answers, as it was held in `sys`, is the live order of the client chain
      in `sys'`, if that has one for the device. */
  predicate Answers(sys: System, e: Envelope, sys': System)
    requires e.msg.Terminal()
  {
    var d := e.msg.device;
    && Held(sys, e.from, e.to, d) && e.to in sys'.chains
    && var x' := sys'.chains[e.to].x;
    d in x'.orders ==> sys.chains[e.from].s.orders[d] == x'.orders[d].(paraid := e.to)
  }

  /** No new order for the device of `e` on the client chain. */
  predicate NoNewOrder(sys: System, e: Envelope, sys': System)
    requires e.msg.Terminal()
  {
    && e.to in sys.chains && e.to in sys'.chains
    && var d, x, x' := e.msg.device, sys.chains[e.to].x, sys'.chains[e.to].x;
    d in x'.orders ==> d in x.orders && x'.orders[d] == x.orders[d]
  }

  ghost predicate CausedIn(states: seq<System>, ts: seq<Transition>, e: Envelope, j: nat, n: nat)
    requires IsSegment(states, ts) && n <= |ts| && e.msg.Terminal()
  {
    j < n && CausedBy(states[j], ts[j], e) && Answers(states[j], e, states[n])
  }

  /** A terminal message after a step was there before, the client's order then being what it
      is now, or was just caused. */
  lemma TerminalStep(sys: System, t: Transition, e: Envelope)
    requires Inv(sys, e.to) && Enabled(sys, t) && e.msg.Terminal() && e in Next(sys, t).net
    ensures if e in sys.net then NoNewOrder(sys, e, Next(sys, t))
      else CausedBy(sys, t, e) && Answers(sys, e, Next(sys, t))
  {
    hide XStep, SStep;
    var d := e.msg.device;
    assert TokenInv(sys, e.to, d, false);
    if e in sys.net {
      assert IsToken(sys, e, e.to, d, false);
      ClientOrderStays(sys, t, e.to, d);
    } else {
      assert Acts(t, e.from);
      TerminalHasCause(e.from, sys.chains[e.from], CallAt(t, e.from));
      assert Held(sys, e.from, e.to, d);
      StepOfChain(sys, t, e.to);
    }
  }

  /** The cause of a message is the last step, or stays its cause while the message is in flight. */
  lemma CauseStays(states: seq<System>, ts: seq<Transition>, e: Envelope, j: nat, n: nat)
    requires IsRun(states, ts, e.to) && 0 < n <= |ts| && e.msg.Terminal() && e in states[n].net
    ensures e !in states[n - 1].net ==> CausedIn(states, ts, e, n - 1, n)
    ensures e in states[n - 1].net && CausedIn(states, ts, e, j, n - 1) ==> CausedIn(states, ts, e, j, n)
  {
    hide Next, Enabled, Inv, Quiet, Genesis, CausedBy, Answers, NoNewOrder;
    RunInv(states, ts, e.to, n - 1);
    TerminalStep(states[n - 1], ts[n - 1], e);
    if e in states[n - 1].net && CausedIn(states, ts, e, j, n - 1) {
      AnswersOn(states[j], e, states[n - 1], states[n]);
    }
  }

  lemma AnswersOn(before: System, e: Envelope, sys: System, sys': System)
    requires e.msg.Terminal() && Answers(before, e, sys) && NoNewOrder(sys, e, sys')
    ensures Answers(before, e, sys')
  {
  }

  lemma {:induction false} InFlightWasCaused(states: seq<System>, ts: seq<Transition>, e: Envelope, n: nat)
    returns (j: nat)
    requires IsRun(states, ts, e.to) && n <= |ts| && e.msg.Terminal() && e in states[n].net
    ensures CausedIn(states, ts, e, j, n)
  {
    hide CausedIn, Next, Enabled, Quiet, Genesis;
    if n == 0 {
      GenesisIsFresh(states[0], e.to);
      assert false;
    } else {
      CauseStays(states, ts, e, n - 1, n);
      if e in states[n - 1].net {
        j := InFlightWasCaused(states, ts, e, n - 1);
        CauseStays(states, ts, e, j, n);
      } else {
        j := n - 1;
      }
    }
  }

  /** The order `deal` stands for on its client chain `p` was held by its device on chain `q`
      in state `j`. */
  ghost predicate HeldAs(sys: System, q: ParaId, p: ParaId, deal: Escrow.Deal) {
    && Held(sys, q, p, deal.device)
    && var order := sys.chains[q].s.orders[deal.device];
    order.client == deal.client && order.fee == deal.fee && order.until == deal.until
  }

  /** A client chain pays a fee only for an order with that client, fee and deadline that the
      device held on another chain, had accepted, and reported done there. */
  lemma PaidOnlyForWork(states: seq<System>, ts: seq<Transition>, p: ParaId, n: nat)
    returns (q: ParaId, j: nat)
    requires IsRun(states, ts, p) && n < |ts| && p in states[n].chains
    requires var act := ActOf(MoveIn(states, ts, p, n), true); act.Settle? && act.paid
    ensures var deal := ActOf(MoveIn(states, ts, p, n), true).deal;
      && j < n && HeldAs(states[j], q, p, deal) && IsAccepted(states[j].chains[q], deal.device)
      && ts[j].Local? && ts[j].p == q && ts[j].call.SDone? && ts[j].call.id == deal.device
  {
    var e := ts[n].e;
    q := e.from;
    j := InFlightWasCaused(states, ts, e, n);
  }

  /** A client chain refunds a fee on a message only when the order it placed was rejected by
      the device, or cancelled by the same client after the deadline, on the chain that held it. */
  lemma RejectionWasCaused(states: seq<System>, ts: seq<Transition>, p: ParaId, n: nat)
    returns (j: nat)
    requires IsRun(states, ts, p) && n < |ts| && p in states[n].chains
    requires var act := ActOf(MoveIn(states, ts, p, n), true); act.Settle? && !act.paid
    requires ts[n].Deliver?
    ensures var deal, q := ActOf(MoveIn(states, ts, p, n), true).deal, ts[n].e.from;
      && j < n && HeldAs(states[j], q, p, deal) && ts[j].Local? && ts[j].p == q
      && ((ts[j].call.SAccept? && ts[j].call.id == deal.device && ts[j].call.reject)
          || (ts[j].call == SCancel(deal.client, deal.device) && states[j].chains[q].now >= deal.until))
  {
    var e := ts[n].e;
    assert e.to == p && e.msg.OrderReject? && e in states[n].net && e.msg.device in states[n].chains[p].x.orders;
    assert ActOf(MoveIn(states, ts, p, n), true).deal == XE.DealOf(states[n].chains[p].x, e.msg.device);
    hide XStep, SStep, MoveAt, Next, Quiet;
    j := InFlightWasCaused(states, ts, e, n);
    RunInv(states, ts, p, n);
    assert TokenInv(states[n], p, e.msg.device, false) && IsToken(states[n], e, p, e.msg.device, false);
  }

  /** A client chain refunds a fee only when its client cancels there after the deadline, or
      when the order it placed was rejected by the device, or cancelled by the same client
      after the deadline, on the chain that held it. */
  lemma RefundedOnlyForCause(states: seq<System>, ts: seq<Transition>, p: ParaId, n: nat)
    returns (q: ParaId, j: nat)
    requires IsRun(states, ts, p) && n < |ts| && p in states[n].chains
    requires var act := ActOf(MoveIn(states, ts, p, n), true); act.Settle? && !act.paid
    ensures var deal := ActOf(MoveIn(states, ts, p, n), true).deal;
      || (ts[n] == Local(p, XCancel(deal.client, deal.device)) && states[n].chains[p].now >= deal.until)
      || (j < n && HeldAs(states[j], q, p, deal) && ts[j].Local? && ts[j].p == q
          && ((ts[j].call.SAccept? && ts[j].call.id == deal.device && ts[j].call.reject)
              || (ts[j].call == SCancel(deal.client, deal.device) && states[j].chains[q].now >= deal.until)))
  {
    q, j := 0, 0;
    if ts[n].Deliver? {
      q := ts[n].e.from;
      j := RejectionWasCaused(states, ts, p, n);
    }
  }

  // What becomes of a reply

  /** The step takes `e` out of the network: it is lost, given to the wrong handler, or meets no
      order, and its chain stays as it was; or it settles the deal it answers, as done or not. */
  ghost predicate MeetsFate(states: seq<System>, ts: seq<Transition>, e: Envelope, j: nat, k: nat)
    requires IsSegment(states, ts) && j <= k < |ts| && e.msg.Terminal()
  {
    && (ts[k] == Lose(e) || (ts[k].Deliver? && ts[k].e == e))
    && e.to in states[k].chains && e.to in states[k + 1].chains
    && if ts[k].Deliver? && !ts[k].toService && e.msg.device in states[k].chains[e.to].x.orders then
         var act := ActOf(MoveIn(states, ts, e.to, k), true);
         act.Settle? && act.paid == e.msg.OrderDone? && HeldAs(states[j], e.from, e.to, act.deal)
       else states[k + 1].chains[e.to] == states[k].chains[e.to]
  }

  /** `e`, sent in step `j`, is in flight in state `m`, and answers the client's order if that
      is still there. */
  ghost predicate InFlightAt(states: seq<System>, ts: seq<Transition>, e: Envelope, j: nat, m: nat)
    requires IsSegment(states, ts) && m <= |ts| && e.msg.Terminal()
  {
    e in states[m].net && e.to in states[m].chains && CausedIn(states, ts, e, j, m)
  }

  ghost predicate InFlightSince(states: seq<System>, ts: seq<Transition>, e: Envelope, j: nat, k: nat)
    requires IsSegment(states, ts) && j < k <= |ts| && e.msg.Terminal()
  {
    forall m :: j < m <= k ==> InFlightAt(states, ts, e, j, m)
  }

  /** In this step chain `e.from` sends `e`. */
  predicate Sends(sys: System, t: Transition, e: Envelope) {
    && e.from in sys.chains && Acts(t, e.from)
    && Dispatch(e.from, sys.chains[e.from], CallAt(t, e.from)).sent == Some(Sent(e.to, e.msg))
  }

  lemma SendingIsNew(sys: System, t: Transition, e: Envelope)
    requires Inv(sys, e.to) && Enabled(sys, t) && e.msg.Terminal() && Sends(sys, t, e)
    ensures e !in sys.net && e in Next(sys, t).net
  {
    TerminalHasCause(e.from, sys.chains[e.from], CallAt(t, e.from));
    hide Dispatch;
    var d := e.msg.device;
    assert Held(sys, e.from, e.to, d) && TokenInv(sys, e.to, d, false);
    assert IsToken(sys, e, e.to, d, false);
  }

  /** The step that sends a reply is its cause. */
  lemma SendingCauses(states: seq<System>, ts: seq<Transition>, e: Envelope, j: nat)
    requires IsRun(states, ts, e.to) && j < |ts| && e.msg.Terminal()
    requires Sends(states[j], ts[j], e)
    ensures InFlightSince(states, ts, e, j, j + 1)
  {
    RunInv(states, ts, e.to, j);
    RunInv(states, ts, e.to, j + 1);
    hide Next, Enabled, Inv, Quiet, Genesis, Sends, Causes, Held;
    SendingIsNew(states[j], ts[j], e);
    TerminalStep(states[j], ts[j], e);
  }

  lemma StepTakesOne(sys: System, t: Transition, e: Envelope)
    requires Enabled(sys, t) && e in sys.net
    ensures e in Next(sys, t).net || t == Lose(e) || (t.Deliver? && t.e == e)
  {
    hide Dispatch;
  }

  /** Delivered to an order, a reply settles the deal it answers. */
  lemma AnswerSettles(before: System, sys: System, e: Envelope)
    requires Inv(sys, e.to) && e in sys.net && e.msg.Terminal() && Answers(before, e, sys)
    requires e.msg.device in sys.chains[e.to].x.orders
    ensures var act := ActOf(MoveOf(e.to, sys.chains[e.to], XHandle(e.msg)), true);
      act.Settle? && act.paid == e.msg.OrderDone? && HeldAs(before, e.from, e.to, act.deal)
  {
    var c := sys.chains[e.to];
    assert TokenInv(sys, e.to, e.msg.device, false) && IsToken(sys, e, e.to, e.msg.device, false);
    hide TokenInv, Unreserve, RepatriateReserved;
    assert Sound(e.to, c);
    Guarantees.ClientReplySettles(e.to, c, e.msg);
  }

  /** A reply that meets no order changes nothing. */
  lemma LostChangesNothing(sys: System, t: Transition, e: Envelope)
    requires Enabled(sys, t) && e.msg.Terminal() && e.to in sys.chains
    requires t == Lose(e) || (t.Deliver? && t.e == e && (t.toService || e.msg.device !in sys.chains[e.to].x.orders))
    ensures e.to in Next(sys, t).chains && Next(sys, t).chains[e.to] == sys.chains[e.to]
  {
    StepOfChain(sys, t, e.to);
    hide Next;
  }

  lemma FateComes(states: seq<System>, ts: seq<Transition>, e: Envelope, j: nat, k: nat)
    requires IsRun(states, ts, e.to) && j < k < |ts| && e.msg.Terminal()
    requires InFlightAt(states, ts, e, j, k) && (ts[k] == Lose(e) || (ts[k].Deliver? && ts[k].e == e))
    ensures MeetsFate(states, ts, e, j, k)
  {
    hide Next, Enabled, Quiet, Genesis, Inv, Answers, CausedBy, MoveOf, HeldAs;
    RunInv(states, ts, e.to, k);
    HistoryEngaged(states, ts, e.to, k + 1);
    if ts[k].Deliver? && !ts[k].toService && e.msg.device in states[k].chains[e.to].x.orders {
      AnswerSettles(states[j], states[k], e);
    } else {
      LostChangesNothing(states[k], ts[k], e);
    }
  }

  lemma StaysInFlight(states: seq<System>, ts: seq<Transition>, e: Envelope, j: nat, k: nat)
    requires IsRun(states, ts, e.to) && j < k < |ts| && e.msg.Terminal()
    requires InFlightAt(states, ts, e, j, k) && !(ts[k] == Lose(e) || (ts[k].Deliver? && ts[k].e == e))
    ensures InFlightAt(states, ts, e, j, k + 1)
  {
    hide Next, Enabled, Inv, Quiet, Genesis, CausedIn;
    assert e.to in states[k + 1].chains by {
      HistoryEngaged(states, ts, e.to, k + 1);
    }
    assert e in states[k + 1].net by {
      StepTakesOne(states[k], ts[k], e);
    }
    CauseStays(states, ts, e, j, k + 1);
  }

  /** Every reply that ends a held foreign order has one fate: up to any state `n` it is still in
      flight, or some step `k` lost it, or delivered it where the order was gone, or settled by
      it the very deal it answers, as paid if it reports the work done. */
  lemma {:induction false} FateOfReply(states: seq<System>, ts: seq<Transition>, e: Envelope, j: nat, n: nat)
    returns (k: nat)
    requires IsRun(states, ts, e.to) && j < n <= |ts| && e.msg.Terminal()
    requires Sends(states[j], ts[j], e)
    ensures j < k <= n && InFlightSince(states, ts, e, j, k) && (k < n ==> MeetsFate(states, ts, e, j, k))
  {
    hide Next, Enabled, Sends, InFlightAt, MeetsFate, Quiet, Genesis;
    if n == j + 1 {
      SendingCauses(states, ts, e, j);
      k := n;
    } else {
      k := FateOfReply(states, ts, e, j, n - 1);
      if k == n - 1 {
        if ts[k] == Lose(e) || (ts[k].Deliver? && ts[k].e == e) {
          FateComes(states, ts, e, j, k);
        } else {
          StaysInFlight(states, ts, e, j, k);
          k := n;
        }
      }
    }
  }

  /** So every report of work done on a held foreign order is still in flight, lost, without an
      order to meet, or has had that order paid. */
  lemma FateOfWork(states: seq<System>, ts: seq<Transition>, p: ParaId, j: nat, n: nat)
    returns (e: Envelope, k: nat)
    requires IsRun(states, ts, p) && j < n <= |ts|
    requires ts[j].Local? && ts[j].call.SDone? && Held(states[j], ts[j].p, p, ts[j].call.id)
    requires IsAccepted(states[j].chains[ts[j].p], ts[j].call.id)
    ensures var q, d := ts[j].p, ts[j].call.id;
      e == Envelope(q, p, OrderDone(states[j].chains[q].s.orders[d].client, d, ts[j].call.onoff))
    ensures j < k <= n && InFlightSince(states, ts, e, j, k) && (k < n ==> MeetsFate(states, ts, e, j, k))
  {
    var q, call := ts[j].p, ts[j].call;
    var c := states[j].chains[q];
    e := Envelope(q, p, OrderDone(c.s.orders[call.id].client, call.id, call.onoff));
    assert Sends(states[j], ts[j], e) by {
      hide Next, Enabled, IsRun, RepatriateReserved, Unreserve;
    }
    hide Next, Enabled, Sends, InFlightSince, MeetsFate, Quiet, Genesis, SStep;
    k := FateOfReply(states, ts, e, j, n);
  }

  // Late replies

  /** No order of `d` on chain `c`, and none can be placed. */
  predicate Idle(sys: System, c: ParaId, d: AccountId) {
    c in sys.chains && d !in sys.chains[c].x.orders && !X.IsReady(sys.chains[c].x, d)
  }

  predicate RegistersReadyAt(t: Transition, c: ParaId, d: AccountId) {
    t.Local? && t.p == c && t.call.XRegister? && t.call.id == d && t.call.onoff
  }

  lemma IdleCall(c: Chain, call: Call, d: AccountId)
    requires call.OfClientPallet() && d !in c.x.orders && !X.IsReady(c.x, d)
    requires !(call.XRegister? && call.id == d && call.onoff)
    ensures var x := XStep(c, call).state; d !in x.orders && !X.IsReady(x, d)
  {
    hide Reserve, Unreserve, RepatriateReserved;
  }

  lemma IdleStays(sys: System, t: Transition, c: ParaId, d: AccountId)
    requires Enabled(sys, t) && Idle(sys, c, d) && !RegistersReadyAt(t, c, d)
    ensures Idle(Next(sys, t), c, d)
  {
    hide XStep, SStep;
    StepOfChain(sys, t, c);
    hide Next;
    if Acts(t, c) && CallAt(t, c).OfClientPallet() {
      IdleCall(sys.chains[c], CallAt(t, c), d);
    }
  }

  lemma CancelLeavesIdle(sys: System, c: ParaId, who: AccountId, d: AccountId)
    requires c in sys.chains && XE.Engaged(sys.chains[c].x) && d in sys.chains[c].x.orders
    ensures var sys' := Act(sys, c, XCancel(who, d));
      d !in sys'.chains[c].x.orders ==> Idle(sys', c, d)
  {
  }

  lemma IdleIgnoresReplies(sys: System, t: Transition, c: ParaId, d: AccountId)
    requires Enabled(sys, t) && Idle(sys, c, d)
    requires t.Deliver? && t.e.to == c && t.e.msg.Terminal() && t.e.msg.device == d
    ensures c in Next(sys, t).chains && Next(sys, t).chains[c] == sys.chains[c]
  {
    StepOfChain(sys, t, c);
  }

  /** Late replies are harmless: after a client cancelled, and until the device registers as
      ready again, the device stays without an order in every interleaving, and delivering any
      reply for it changes nothing on the client chain. */
  lemma {:induction false} LateRepliesHarmless(
    states: seq<System>, ts: seq<Transition>, c: ParaId, who: AccountId, d: AccountId, n: nat)
    requires IsSegment(states, ts) && 0 < n <= |ts| && c in states[0].chains
    requires XE.Engaged(states[0].chains[c].x)
    requires ts[0] == Local(c, XCancel(who, d)) && d in states[0].chains[c].x.orders
    requires d !in states[1].chains[c].x.orders
    requires forall i {:trigger ts[i]} :: 0 <= i < |ts| ==> !RegistersReadyAt(ts[i], c, d)
    ensures Idle(states[n], c, d)
    ensures n < |ts| && ts[n].Deliver? && ts[n].e.to == c && ts[n].e.msg.Terminal() && ts[n].e.msg.device == d ==>
      c in states[n + 1].chains && states[n + 1].chains[c] == states[n].chains[c]
  {
    if n == 1 {
      CancelLeavesIdle(states[0], c, who, d);
    } else {
      LateRepliesHarmless(states, ts, c, who, d, n - 1);
      IdleStays(states[n - 1], ts[n - 1], c, d);
    }
    if n < |ts| && ts[n].Deliver? && ts[n].e.to == c && ts[n].e.msg.Terminal() && ts[n].e.msg.device == d {
      IdleIgnoresReplies(states[n], ts[n], c, d);
    }
  }

  // Foreign orders

  /** In this step chain `p` took an order of `c` for `d`. */
  function Taken(sys: System, t: Transition, p: ParaId, c: ParaId, d: AccountId): nat
    requires Enabled(sys, t)
  {
    if !Held(sys, p, c, d) && Held(Next(sys, t), p, c, d) then 1 else 0
  }

  /** In this step chain `p` sent `c` a reply that ends an order for `d`. */
  function Replied(sys: System, t: Transition, p: ParaId, c: ParaId, d: AccountId): nat
    requires Enabled(sys, t) && p in sys.chains
  {
    if !Acts(t, p) then 0
    else
      var sent := Dispatch(p, sys.chains[p], CallAt(t, p)).sent;
      if sent.Some? && sent.value.dest == c && sent.value.msg.Terminal() && sent.value.msg.device == d then 1 else 0
  }

  ghost function TakenSum(
    states: seq<System>, ts: seq<Transition>, p: ParaId, c: ParaId, d: AccountId, n: nat): nat
    requires IsSegment(states, ts) && n <= |ts|
  {
    if n == 0 then 0
    else TakenSum(states, ts, p, c, d, n - 1) + Taken(states[n - 1], ts[n - 1], p, c, d)
  }

  ghost function RepliedSum(
    states: seq<System>, ts: seq<Transition>, p: ParaId, c: ParaId, d: AccountId, n: nat): nat
    requires IsSegment(states, ts) && n <= |ts|
  {
    if n == 0 then 0
    else
      RepliedSum(states, ts, p, c, d, n - 1) +
      if p in states[n - 1].chains then Replied(states[n - 1], ts[n - 1], p, c, d) else 0
  }

  function HeldCount(sys: System, p: ParaId, c: ParaId, d: AccountId): nat {
    if Held(sys, p, c, d) then 1 else 0
  }

  /** A service call that takes, keeps or ends an order keeps the balance. */
  lemma ForeignServiceCall(sys: System, p: ParaId, call: Call, c: ParaId, d: AccountId)
    requires p in sys.chains && p != c && call.OfServicePallet()
    ensures var step := SStep(p, sys.chains[p], call);
      var held' := d in step.state.orders && step.state.orders[d].paraid == c;
      var replied := step.sent.Some? && step.sent.value.dest == c && step.sent.value.msg.Terminal()
        && step.sent.value.msg.device == d;
      replied <==> Held(sys, p, c, d) && !held'
  {
    hide SStep;
    Replies.ServiceShape(p, sys.chains[p], call);
  }

  lemma ForeignStep(sys: System, t: Transition, p: ParaId, c: ParaId, d: AccountId)
    requires Enabled(sys, t) && p in sys.chains && p != c
    ensures p in Next(sys, t).chains
    ensures HeldCount(sys, p, c, d) + Taken(sys, t, p, c, d) ==
      HeldCount(Next(sys, t), p, c, d) + Replied(sys, t, p, c, d)
  {
    hide SStep;
    StepOfChain(sys, t, p);
    hide Next, XStep;
    if Acts(t, p) {
      var call := CallAt(t, p);
      if call.OfServicePallet() {
        ForeignServiceCall(sys, p, call, c, d);
      } else if call.OfClientPallet() {
        Tokens.ClientSendsOrders(sys.chains[p], call);
      }
    }
  }

  lemma SumsStart(states: seq<System>, ts: seq<Transition>, p: ParaId, c: ParaId, d: AccountId)
    requires IsHistory(states, ts) && p in states[0].chains
    ensures TakenSum(states, ts, p, c, d, 0) == RepliedSum(states, ts, p, c, d, 0) == HeldCount(states[0], p, c, d) == 0
  {
    hide Next, Enabled;
  }

  lemma SumsStep(states: seq<System>, ts: seq<Transition>, p: ParaId, c: ParaId, d: AccountId, n: nat)
    requires IsSegment(states, ts) && n < |ts| && p in states[n].chains && p != c
    ensures p in states[n + 1].chains
    ensures
      TakenSum(states, ts, p, c, d, n + 1) - RepliedSum(states, ts, p, c, d, n + 1) - HeldCount(states[n + 1], p, c, d)
      == TakenSum(states, ts, p, c, d, n) - RepliedSum(states, ts, p, c, d, n) - HeldCount(states[n], p, c, d)
  {
    hide HeldCount, Next, Replied, Taken;
    ForeignStep(states[n], ts[n], p, c, d);
  }

  /** Every foreign order is answered at most once: the orders a device took from `c` are the
      ones answered to `c` plus the one it still holds. */
  lemma {:induction false} ForeignOrdersAnsweredOnce(
    states: seq<System>, ts: seq<Transition>, p: ParaId, c: ParaId, d: AccountId, n: nat)
    requires IsHistory(states, ts) && n <= |ts| && p in states[0].chains && p != c
    ensures p in states[n].chains
    ensures TakenSum(states, ts, p, c, d, n) == RepliedSum(states, ts, p, c, d, n) + HeldCount(states[n], p, c, d)
  {
    hide HeldCount, TakenSum, RepliedSum, Genesis, Next, Enabled;
    if n == 0 {
      SumsStart(states, ts, p, c, d);
    } else {
      ForeignOrdersAnsweredOnce(states, ts, p, c, d, n - 1);
      SumsStep(states, ts, p, c, d, n - 1);
    }
  }
}
