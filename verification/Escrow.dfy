/** The escrow both pallets are meant to be: open deals and four kinds of move, each of
    them atomic and exact. */
module Escrow {
  import opened Common
  import opened Totals
  import opened Balances

  datatype Deal = Deal(
    client: AccountId, device: AccountId, fee: Balance, penalty: Balance, until: Moment, wcd: Moment)

  /** Open deals by device. */
  type Deals = map<AccountId, Deal>

  datatype Action =
    | Stutter
    | Open(deal: Deal)
    | Settle(deal: Deal, paid: bool, late: bool)
    | Strand(who: AccountId, amount: Balance)

  /** What account `a` has at stake in a deal. */
  function Share(deal: Deal, a: AccountId): nat {
    (if a == deal.client then deal.fee else 0) + (if a == deal.device then deal.penalty else 0)
  }

  /** What account `a` gets out of it: the fee goes to the device if the work was done, the
      penalty goes to the client if the deal ended late. */
  function Award(deal: Deal, paid: bool, late: bool, a: AccountId): nat {
    (if a == (if paid then deal.device else deal.client) then deal.fee else 0) +
    (if a == (if late then deal.client else deal.device) then deal.penalty else 0)
  }

  /** The change an action makes to what `a` owns, free and reserved together. */
  function Payoff(act: Action, a: AccountId): int {
    if act.Settle? then Award(act.deal, act.paid, act.late, a) - Share(act.deal, a) else 0
  }

  ghost predicate SetAside(l: Ledger, deal: Deal, l': Ledger) {
    && (forall a :: Free(l', a) == Free(l, a) - Share(deal, a))
    && (forall a :: Reserved(l', a) == Reserved(l, a) + Share(deal, a))
  }

  ghost predicate PaidOut(l: Ledger, deal: Deal, paid: bool, late: bool, l': Ledger) {
    && (forall a :: Free(l', a) == Free(l, a) + Award(deal, paid, late, a))
    && (forall a :: Reserved(l', a) == Reserved(l, a) - Share(deal, a))
  }

  /** `act`, done at time `now`, takes one book of deals to the next. */
  predicate Records(now: Moment, deals: Deals, act: Action, deals': Deals) {
    match act
    case Stutter => deals' == deals
    case Open(deal) =>
      && deal.device !in deals && deals' == deals[deal.device := deal]
      && now < deal.until && now + deal.wcd <= deal.until
    case Settle(deal, _, late) =>
      && deal.device in deals && deals[deal.device] == deal && deals' == deals - {deal.device}
      && late == (now >= deal.until)
    case Strand(_, _) => deals' == deals
  }

  /** `act` takes one ledger to the next. */
  ghost predicate Pays(l: Ledger, act: Action, l': Ledger) {
    match act
    case Stutter => l' == l
    case Open(deal) => SetAside(l, deal, l')
    case Settle(deal, paid, late) => PaidOut(l, deal, paid, late, l')
    case Strand(who, amount) =>
      && (forall a :: Free(l', a) == Free(l, a) - if a == who then amount else 0)
      && (forall a :: Reserved(l', a) == Reserved(l, a) + if a == who then amount else 0)
  }

  ghost function Shares(deals: Deals, a: AccountId): map<AccountId, nat> {
    map d | d in deals :: Share(deals[d], a)
  }

  /** All that `a` has at stake in the open deals. */
  ghost function Locked(deals: Deals, a: AccountId): nat {
    Total(Shares(deals, a))
  }

  lemma LockedAtLeast(deals: Deals, d: AccountId, a: AccountId)
    requires d in deals
    ensures Share(deals[d], a) <= Locked(deals, a)
  {
    TotalRemove(Shares(deals, a), d);
  }

  /** No account has less reserved than any one deal needs of it. */
  ghost predicate Covers(l: Ledger, deals: Deals) {
    forall d, a :: d in deals ==> Share(deals[d], a) <= Reserved(l, a)
  }

  lemma CoversOne(l: Ledger, deals: Deals, d: AccountId)
    requires Covers(l, deals) && d in deals
    ensures forall a :: Share(deals[d], a) <= Reserved(l, a)
  {
  }

  lemma PlacementSetsAside(l: Ledger, deal: Deal)
    requires CanReserve(l, deal.device, deal.penalty)
    requires CanReserve(Reserve(l, deal.device, deal.penalty), deal.client, deal.fee)
    ensures SetAside(l, deal, Reserve(Reserve(l, deal.device, deal.penalty), deal.client, deal.fee))
  {
    hide Reserve, Free, Reserved;
  }

  /** The two best-effort calls of a done order pay out exactly when the deal is covered. */
  lemma DonePaysOut(l: Ledger, deal: Deal, late: bool)
    requires Share(deal, deal.client) <= Reserved(l, deal.client)
    requires Share(deal, deal.device) <= Reserved(l, deal.device)
    ensures var paid := RepatriateReserved(l, deal.client, deal.device, deal.fee);
      PaidOut(l, deal, true, late,
        if late then RepatriateReserved(paid, deal.device, deal.client, deal.penalty)
        else Unreserve(paid, deal.device, deal.penalty))
  {
    hide Unreserve, RepatriateReserved, Free, Reserved;
  }

  /** So do those of a rejected or cancelled order. */
  lemma RejectPaysOut(l: Ledger, deal: Deal, late: bool)
    requires Share(deal, deal.client) <= Reserved(l, deal.client)
    requires Share(deal, deal.device) <= Reserved(l, deal.device)
    ensures var refunded := Unreserve(l, deal.client, deal.fee);
      PaidOut(l, deal, false, late,
        if late then RepatriateReserved(refunded, deal.device, deal.client, deal.penalty)
        else Unreserve(refunded, deal.device, deal.penalty))
  {
    hide Unreserve, RepatriateReserved, Free, Reserved;
  }

  function Stranded(act: Action, a: AccountId): nat {
    if act.Strand? && act.who == a then act.amount else 0
  }

  /** The change an action makes to what `a` has locked. */
  function Locks(act: Action, a: AccountId): int {
    match act
    case Open(deal) => Share(deal, a)
    case Settle(deal, _, _) => 0 - Share(deal, a)
    case _ => 0
  }

  lemma RecordsTrackLocked(now: Moment, deals: Deals, act: Action, deals': Deals, a: AccountId)
    requires Records(now, deals, act, deals')
    ensures Locked(deals', a) == Locked(deals, a) + Locks(act, a)
  {
    match act
    case Stutter =>
    case Strand(_, _) =>
    case Open(deal) =>
      assert Shares(deals', a) == Shares(deals, a)[deal.device := Share(deal, a)];
      TotalUpdate(Shares(deals, a), deal.device, Share(deal, a));
    case Settle(deal, _, _) =>
      assert Shares(deals', a) == Shares(deals, a) - {deal.device};
      TotalRemove(Shares(deals, a), deal.device);
  }

  /** A move changes what is locked exactly as it changes what is reserved, except that a
      half-finished placement reserves without locking. */
  lemma MovesTrackLocked(now: Moment, l: Ledger, deals: Deals, act: Action, l': Ledger, deals': Deals, a: AccountId)
    requires Records(now, deals, act, deals') && Pays(l, act, l')
    ensures Reserved(l', a) - Locked(deals', a) == Reserved(l, a) - Locked(deals, a) + Stranded(act, a)
    ensures Wealth(l', a) == Wealth(l, a) + Payoff(act, a)
  {
    RecordsTrackLocked(now, deals, act, deals', a);
  }

  // All stakes together

  ghost function StakesOf(deals: Deals): map<AccountId, nat> {
    map d | d in deals :: deals[d].fee + deals[d].penalty
  }

  ghost function Stakes(deals: Deals): nat {
    Total(StakesOf(deals))
  }

  function Staked(act: Action): int {
    match act
    case Open(deal) => deal.fee + deal.penalty
    case Settle(deal, _, _) => 0 - (deal.fee + deal.penalty)
    case _ => 0
  }

  lemma RecordsTrackStakes(now: Moment, deals: Deals, act: Action, deals': Deals)
    requires Records(now, deals, act, deals')
    ensures Stakes(deals') == Stakes(deals) + Staked(act)
  {
    match act
    case Stutter =>
    case Strand(_, _) =>
    case Open(deal) =>
      assert StakesOf(deals') == StakesOf(deals)[deal.device := deal.fee + deal.penalty];
      TotalUpdate(StakesOf(deals), deal.device, deal.fee + deal.penalty);
    case Settle(deal, _, _) =>
      assert StakesOf(deals') == StakesOf(deals) - {deal.device};
      TotalRemove(StakesOf(deals), deal.device);
  }

  /** A move that strands nothing turns free money into stakes and back. */
  lemma MovesKeepMoney(now: Moment, l: Ledger, deals: Deals, act: Action, l': Ledger, deals': Deals)
    requires Records(now, deals, act, deals') && Pays(l, act, l')
    requires forall a :: Stranded(act, a) == 0
    ensures TotalFree(l') + Stakes(deals') == TotalFree(l) + Stakes(deals)
  {
    RecordsTrackStakes(now, deals, act, deals');
    match act
    case Stutter =>
    case Strand(who, amount) =>
      assert Stranded(act, who) == 0;
      TotalFreeChanges(l, l', who, 0, who, 0);
    case Open(deal) =>
      assert Free(l', deal.client) >= 0;
      TotalFreeChanges(l, l', deal.client, 0 - deal.fee, deal.device, 0 - deal.penalty);
    case Settle(deal, paid, late) =>
      TotalFreeChanges(
        l, l', if paid then deal.device else deal.client, deal.fee,
        if late then deal.client else deal.device, deal.penalty);
  }
}

/** The client-side pallet moves as that escrow. */
module XChangeEscrow {
  import opened Common
  import opened Balances
  import opened Escrow
  import opened XChange

  /** An order needs its device: registered, and engaged or abandoned. */
  ghost predicate Engaged(x: State) {
    && (forall d :: d in x.orders ==>
      d in x.devices && (x.devices[d].state == Busy || x.devices[d].state == Timewait))
    && (forall d :: d in x.devices ==> x.devices[d].state != DeviceState.Accepted)
  }

  function DealOf(x: State, d: AccountId): Deal
    requires d in x.orders && d in x.devices
  {
    Deal(x.orders[d].client, d, x.orders[d].fee, x.devices[d].penalty, x.orders[d].until, x.devices[d].wcd)
  }

  ghost function Deals(x: State): Escrow.Deals {
    map d | d in x.orders && d in x.devices :: DealOf(x, d)
  }

  function OrderAction(l: Ledger, x: State, step: Step, device: AccountId): Action {
    if step.result.Ok? && device in step.state.orders && device in step.state.devices then
      Open(DealOf(step.state, device))
    else if step.ledger != l && device in x.devices then Strand(device, x.devices[device].penalty)
    else Stutter
  }

  function EndAction(now: Moment, x: State, step: Step, device: AccountId, paid: bool): Action {
    if step.result.Ok? && device in x.orders && device in x.devices then
      Settle(DealOf(x, device), paid, now >= x.orders[device].until)
    else Stutter
  }

  lemma OrderMoves(l: Ledger, x: State, now: Moment, who: AccountId, order: OrderBase)
    requires Engaged(x)
    ensures var step := OrderStep(l, x, now, who, order); var act := OrderAction(l, x, step, order.device);
      Engaged(step.state) && Records(now, Deals(x), act, Deals(step.state)) && Pays(l, act, step.ledger)
  {
    hide SetAside, Reserve;
    var step := OrderStep(l, x, now, who, order);
    if step.result.Ok? {
      PlacementSetsAside(l, DealOf(step.state, order.device));
      assert Deals(step.state) == Deals(x)[order.device := DealOf(step.state, order.device)];
    }
  }

  /** Ending an order takes its deal off the book, whoever is named; it pays out if the deal is
      covered and its own client is named. */
  lemma RejectMoves(l: Ledger, x: State, now: Moment, who: AccountId, device: AccountId, state: DeviceState)
    requires Engaged(x) && state != DeviceState.Accepted
    requires device in x.orders && device in x.devices
    ensures var step := RejectStep(l, x, now, who, device, state); var act := EndAction(now, x, step, device, false);
      && Engaged(step.state) && Records(now, Deals(x), act, Deals(step.state))
      && (Covers(l, Deals(x)) && who == x.orders[device].client ==> Pays(l, act, step.ledger))
  {
    hide PaidOut, Unreserve, RepatriateReserved;
    var step := RejectStep(l, x, now, who, device, state);
    var deal := Deals(x)[device];
    assert Deals(step.state) == Deals(x) - {device};
    if Covers(l, Deals(x)) && who == deal.client {
      RejectPaysOut(l, deal, now >= deal.until);
    }
  }

  lemma OnDoneMoves(l: Ledger, x: State, now: Moment, who: AccountId, device: AccountId, onoff: bool)
    requires Engaged(x) && device in x.orders
    ensures var step := OnDoneStep(l, x, now, who, device, onoff); var act := EndAction(now, x, step, device, true);
      && Engaged(step.state) && Records(now, Deals(x), act, Deals(step.state))
      && (Covers(l, Deals(x)) && who == x.orders[device].client ==> Pays(l, act, step.ledger))
  {
    hide PaidOut, Unreserve, RepatriateReserved;
    var step := OnDoneStep(l, x, now, who, device, onoff);
    var deal := Deals(x)[device];
    assert Deals(step.state) == Deals(x) - {device};
    if Covers(l, Deals(x)) && who == deal.client {
      DonePaysOut(l, deal, now >= deal.until);
    }
  }

  lemma CancelMoves(l: Ledger, x: State, now: Moment, who: AccountId, device: AccountId)
    requires Engaged(x)
    ensures var step := CancelStep(l, x, now, who, device); var act := EndAction(now, x, step, device, false);
      && Engaged(step.state) && Records(now, Deals(x), act, Deals(step.state))
      && (Covers(l, Deals(x)) ==> Pays(l, act, step.ledger))
  {
    if CancelStep(l, x, now, who, device).result.Ok? {
      RejectMoves(l, x, now, who, device, x.devices[device].state);
    }
  }

  function HandleAction(now: Moment, x: State, step: Step, msg: XcmpMessage): Action {
    if msg.Terminal() then EndAction(now, x, step, msg.device, msg.OrderDone?) else Stutter
  }

  /** An incoming message ends an order or none; it pays out if the deal is covered and the
      message names its client. */
  lemma HandleMoves(l: Ledger, x: State, now: Moment, msg: XcmpMessage)
    requires Engaged(x)
    ensures var step := HandleStep(l, x, now, msg); var act := HandleAction(now, x, step, msg);
      && Engaged(step.state) && Records(now, Deals(x), act, Deals(step.state))
      && (Covers(l, Deals(x))
          && (msg.Terminal() && msg.device in x.orders ==> msg.client == x.orders[msg.device].client)
          ==> Pays(l, act, step.ledger))
  {
    if msg.Terminal() && msg.device in x.orders {
      hide Pays, Covers, RejectStep, OnDoneStep;
      if msg.OrderDone? {
        OnDoneMoves(l, x, now, msg.client, msg.device, msg.onoff);
      } else {
        RejectMoves(l, x, now, msg.client, msg.device, OnOff(msg.onoff));
      }
    }
  }

  lemma RegisterMoves(l: Ledger, x: State, id: AccountId, para: ParaId, penalty: Balance, wcd: Moment, onoff: bool)
    requires Engaged(x)
    ensures var step := RegisterStep(l, x, id, para, penalty, wcd, onoff);
      Engaged(step.state) && step.ledger == l && Deals(step.state) == Deals(x)
  {
  }

  lemma KilledMoves(x: State, who: AccountId)
    requires Engaged(x)
    ensures Engaged(Killed(x, who)) && Deals(Killed(x, who)) == Deals(x)
  {
  }
}

/** The service-side pallet, restricted to its local orders, moves as that escrow too. */
module XChangeServiceEscrow {
  import opened Common
  import opened Balances
  import opened Escrow
  import opened XChangeService

  /** An order needs its device, busy with it; no device is ever in Timewait here. */
  ghost predicate Engaged(s: State) {
    && (forall d :: d in s.orders ==>
      d in s.devices && (s.devices[d].state == Busy || s.devices[d].state == DeviceState.Accepted))
    && (forall d :: d in s.devices ==> s.devices[d].state != Timewait)
  }

  function DealOf(s: State, d: AccountId): Deal
    requires d in s.orders && d in s.devices
  {
    Deal(s.orders[d].client, d, s.orders[d].fee, s.devices[d].penalty, s.orders[d].until, s.devices[d].wcd)
  }

  predicate IsLocal(self: ParaId, s: State, d: AccountId) {
    d in s.orders && d in s.devices && s.orders[d].paraid == self
  }

  ghost function Deals(self: ParaId, s: State): Escrow.Deals {
    map d | d in s.orders && IsLocal(self, s, d) :: DealOf(s, d)
  }

  function ReceiveAction(self: ParaId, l: Ledger, s: State, step: Step, device: AccountId): Action {
    if step.result.Ok? && IsLocal(self, step.state, device) then Open(DealOf(step.state, device))
    else if step.ledger != l && device in s.devices then Strand(device, s.devices[device].penalty)
    else Stutter
  }

  function EndAction(self: ParaId, now: Moment, s: State, step: Step, device: AccountId, paid: bool): Action {
    if step.result.Ok? && device !in step.state.orders && IsLocal(self, s, device) then
      Settle(DealOf(s, device), paid, now >= s.orders[device].until)
    else Stutter
  }

  lemma PlacedDeals(
    self: ParaId, l: Ledger, s: State, order: Order, device: AccountId, state: DeviceState)
    requires Engaged(s) && HookAnswer(Some(state))
    requires device in s.devices && device !in s.orders
    ensures var s' := Placed(self, l, s, order, device, state).state;
      && Engaged(s')
      && Deals(self, s') ==
        if order.paraid == self then Deals(self, s)[device := DealOf(s', device)] else Deals(self, s)
  {
  }

  lemma ReceiveMoves(
    self: ParaId, l: Ledger, s: State, now: Moment, order: Order, device: AccountId, answer: Option<DeviceState>)
    requires Engaged(s) && HookAnswer(answer)
    ensures var step := ReceiveStep(self, l, s, now, order, device, answer);
      var act := ReceiveAction(self, l, s, step, device);
      && Engaged(step.state)
      && Records(now, Deals(self, s), act, Deals(self, step.state)) && Pays(l, act, step.ledger)
  {
    hide SetAside, Reserve;
    var step := ReceiveStep(self, l, s, now, order, device, answer);
    if step.result.Ok? {
      PlacedDeals(self, step.ledger, s, order, device, answer.value);
      if order.paraid == self {
        PlacementSetsAside(l, DealOf(step.state, device));
      }
    }
  }

  lemma EndedDeals(self: ParaId, s: State, s': State, device: AccountId)
    requires Engaged(s) && device in s.devices && s'.orders == s.orders - {device}
    requires device in s'.devices && s'.devices[device].state != Timewait
    requires s'.devices == s.devices[device := s'.devices[device]]
    ensures Engaged(s')
    ensures Deals(self, s') == if IsLocal(self, s, device) then Deals(self, s) - {device} else Deals(self, s)
  {
  }

  /** Ending an order takes its deal off the book, if it has one; a covered deal is paid out. */
  lemma RejectMoves(
    self: ParaId, l: Ledger, s: State, now: Moment, device: AccountId, state: DeviceState, onoff: bool)
    requires Engaged(s) && state != Timewait && device in s.devices
    ensures var step := RejectStep(self, l, s, now, device, state, onoff);
      var act := EndAction(self, now, s, step, device, false);
      && Engaged(step.state) && Records(now, Deals(self, s), act, Deals(self, step.state))
      && (Covers(l, Deals(self, s)) ==> Pays(l, act, step.ledger))
  {
    hide PaidOut, Unreserve, RepatriateReserved, Covers, Engaged;
    var step := RejectStep(self, l, s, now, device, state, onoff);
    EndedDeals(self, s, step.state, device);
    if IsLocal(self, s, device) && Covers(l, Deals(self, s)) {
      CoversOne(l, Deals(self, s), device);
      RejectPaysOut(l, Deals(self, s)[device], now >= s.orders[device].until);
    }
  }

  lemma DoneMoves(self: ParaId, l: Ledger, s: State, now: Moment, id: AccountId, onoff: bool)
    requires Engaged(s)
    ensures var step := DoneStep(self, l, s, now, id, onoff);
      var act := EndAction(self, now, s, step, id, true);
      && Engaged(step.state) && Records(now, Deals(self, s), act, Deals(self, step.state))
      && (Covers(l, Deals(self, s)) ==> Pays(l, act, step.ledger))
  {
    hide PaidOut, Unreserve, RepatriateReserved, Covers, Engaged;
    var step := DoneStep(self, l, s, now, id, onoff);
    if step.result.Ok? {
      EndedDeals(self, s, step.state, id);
      if IsLocal(self, s, id) && Covers(l, Deals(self, s)) {
        CoversOne(l, Deals(self, s), id);
        DonePaysOut(l, Deals(self, s)[id], now >= s.orders[id].until);
      }
    }
  }

  lemma CancelMoves(self: ParaId, l: Ledger, s: State, now: Moment, who: AccountId, device: AccountId)
    requires Engaged(s)
    ensures var step := CancelStep(self, l, s, now, who, device);
      var act := EndAction(self, now, s, step, device, false);
      && Engaged(step.state) && Records(now, Deals(self, s), act, Deals(self, step.state))
      && (Covers(l, Deals(self, s)) ==> Pays(l, act, step.ledger))
  {
    if CancelStep(self, l, s, now, who, device).result.Ok? {
      RejectMoves(self, l, s, now, device, s.devices[device].state, false);
    }
  }

  lemma AcceptMoves(self: ParaId, l: Ledger, s: State, now: Moment, id: AccountId, reject: bool, onoff: bool)
    requires Engaged(s)
    ensures var step := AcceptStep(self, l, s, now, id, reject, onoff);
      var act := EndAction(self, now, s, step, id, false);
      && Engaged(step.state) && Records(now, Deals(self, s), act, Deals(self, step.state))
      && (Covers(l, Deals(self, s)) ==> Pays(l, act, step.ledger))
  {
    var step := AcceptStep(self, l, s, now, id, reject, onoff);
    if step.result.Ok? {
      if reject {
        RejectMoves(self, l, s, now, id, OnOff(onoff), onoff);
      } else {
        assert Deals(self, step.state) == Deals(self, s);
      }
    }
  }

  lemma RegisterMoves(
    self: ParaId, l: Ledger, s: State, id: AccountId, penalty: Balance, wcd: Moment, onoff: bool)
    requires Engaged(s)
    ensures var step := RegisterStep(l, s, id, penalty, wcd, onoff);
      Engaged(step.state) && step.ledger == l && Deals(self, step.state) == Deals(self, s)
  {
  }

  lemma SetStateMoves(self: ParaId, l: Ledger, s: State, id: AccountId, onoff: bool)
    requires Engaged(s)
    ensures var step := SetStateStep(l, s, id, onoff);
      Engaged(step.state) && step.ledger == l && Deals(self, step.state) == Deals(self, s)
  {
  }

  lemma KilledMoves(self: ParaId, s: State, who: AccountId)
    requires Engaged(s)
    ensures Engaged(Killed(s, who)) && Deals(self, Killed(s, who)) == Deals(self, s)
  {
  }
}
