/** One parachain: a clock, a ledger, and both pallets sharing it. */
module Chains {
  import opened Common
  import opened Balances
  import Escrow
  import X = XChange
  import S = XChangeService
  import XE = XChangeEscrow
  import SE = XChangeServiceEscrow

  datatype Chain = Chain(now: Moment, ledger: Ledger, x: X.State, s: S.State)

  /** Everything that can happen to a chain: each pallet's calls and message handler, an
      account's death, and two things from outside, a transfer and the passing of time. */
  datatype Call =
    | XOrder(who: AccountId, order: OrderBase)
    | XCancel(who: AccountId, device: AccountId)
    | XRegister(id: AccountId, para: ParaId, penalty: Balance, wcd: Moment, onoff: bool)
    | XKilled(who: AccountId)
    | XHandle(msg: XcmpMessage)
    | SOrder(who: AccountId, order: OrderBase, answer: Option<DeviceState>)
    | SCancel(who: AccountId, device: AccountId)
    | SAccept(id: AccountId, reject: bool, onoff: bool)
    | SDone(id: AccountId, onoff: bool)
    | SRegister(id: AccountId, penalty: Balance, wcd: Moment, onoff: bool)
    | SSetState(id: AccountId, onoff: bool)
    | SKilled(who: AccountId)
    | SHandle(sender: ParaId, msg: XcmpMessage, answer: Option<DeviceState>)
    | Transfer(from: AccountId, to: AccountId, amount: Balance)
    | Tick(to: Moment)
  {
    predicate OfClientPallet() {
      XOrder? || XCancel? || XRegister? || XKilled? || XHandle?
    }

    predicate OfServicePallet() {
      SOrder? || SCancel? || SAccept? || SDone? || SRegister? || SSetState? || SKilled? || SHandle?
    }

    predicate OfMessage() {
      XHandle? || SHandle?
    }
  }

  datatype Effect = Effect(chain: Chain, result: Outcome, sent: Option<Sent>)

  function AfterX(c: Chain, step: X.Step): Effect {
    Effect(c.(ledger := step.ledger, x := step.state), step.result, step.sent)
  }

  function AfterS(c: Chain, step: S.Step): Effect {
    Effect(c.(ledger := step.ledger, s := step.state), step.result, step.sent)
  }

  function XStep(c: Chain, call: Call): X.Step
    requires call.OfClientPallet()
  {
    match call
    case XOrder(who, order) => X.OrderStep(c.ledger, c.x, c.now, who, order)
    case XCancel(who, device) => X.CancelStep(c.ledger, c.x, c.now, who, device)
    case XRegister(id, para, penalty, wcd, onoff) => X.RegisterStep(c.ledger, c.x, id, para, penalty, wcd, onoff)
    case XKilled(who) => X.Step(c.ledger, X.Killed(c.x, who), Ok, None)
    case XHandle(msg) => X.HandleStep(c.ledger, c.x, c.now, msg)
  }

  function SStep(self: ParaId, c: Chain, call: Call): S.Step
    requires call.OfServicePallet()
  {
    match call
    case SOrder(who, order, answer) => S.OrderStep(self, c.ledger, c.s, c.now, who, order, answer)
    case SCancel(who, device) => S.CancelStep(self, c.ledger, c.s, c.now, who, device)
    case SAccept(id, reject, onoff) => S.AcceptStep(self, c.ledger, c.s, c.now, id, reject, onoff)
    case SDone(id, onoff) => S.DoneStep(self, c.ledger, c.s, c.now, id, onoff)
    case SRegister(id, penalty, wcd, onoff) => S.RegisterStep(c.ledger, c.s, id, penalty, wcd, onoff)
    case SSetState(id, onoff) => S.SetStateStep(c.ledger, c.s, id, onoff)
    case SKilled(who) => S.Step(c.ledger, S.Killed(c.s, who), Ok, None)
    case SHandle(sender, msg, answer) =>
      if msg.NewOrder? then S.HandleStep(self, c.ledger, c.s, c.now, sender, msg, answer)
      else S.Step(c.ledger, c.s, Ok, None)
  }

  function Dispatch(self: ParaId, c: Chain, call: Call): Effect {
    if call.OfClientPallet() then AfterX(c, XStep(c, call))
    else if call.OfServicePallet() then AfterS(c, SStep(self, c, call))
    else
      match call
      case Tick(to) => Effect(c.(now := to), Ok, None)
      case Transfer(from, to, amount) =>
        if amount <= Free(c.ledger, from) then
          Effect(c.(ledger := Balances.Transfer(c.ledger, from, to, amount)), Ok, None)
        else Effect(c, Err(InsufficientBalance), None)
  }

  /** The clock does not run backwards and the hook answers as it must. */
  predicate Allowed(c: Chain, call: Call) {
    match call
    case Tick(to) => c.now <= to
    case SOrder(_, _, answer) => S.HookAnswer(answer)
    case SHandle(_, _, answer) => S.HookAnswer(answer)
    case _ => true
  }

  /** A reply names the client whose order it ends. */
  predicate Faithful(c: Chain, call: Call) {
    call.XHandle? && call.msg.Terminal() && call.msg.device in c.x.orders ==>
      call.msg.client == c.x.orders[call.msg.device].client
  }

  // What the escrow of a chain sees of a call

  datatype Move =
    | OnClient(act: Escrow.Action)
    | OnService(act: Escrow.Action)
    | Outside(from: AccountId, to: AccountId, amount: Balance)
  {
    function Payoff(a: AccountId): int {
      if Outside? then (if a == to then amount else 0) - (if a == from then amount else 0)
      else Escrow.Payoff(act, a)
    }

    function Stranded(a: AccountId): nat {
      if Outside? then 0 else Escrow.Stranded(act, a)
    }
  }

  function MoveOf(self: ParaId, c: Chain, call: Call): Move {
    match call
    case XOrder(_, order) => OnClient(XE.OrderAction(c.ledger, c.x, XStep(c, call), order.device))
    case XCancel(_, device) => OnClient(XE.EndAction(c.now, c.x, XStep(c, call), device, false))
    case XHandle(msg) => OnClient(XE.HandleAction(c.now, c.x, XStep(c, call), msg))
    case SOrder(_, order, _) => OnService(SE.ReceiveAction(self, c.ledger, c.s, SStep(self, c, call), order.device))
    case SHandle(_, msg, _) =>
      OnService(
        if msg.NewOrder? then SE.ReceiveAction(self, c.ledger, c.s, SStep(self, c, call), msg.order.device)
        else Escrow.Stutter)
    case SCancel(_, device) => OnService(SE.EndAction(self, c.now, c.s, SStep(self, c, call), device, false))
    case SAccept(id, _, _) => OnService(SE.EndAction(self, c.now, c.s, SStep(self, c, call), id, false))
    case SDone(id, _) => OnService(SE.EndAction(self, c.now, c.s, SStep(self, c, call), id, true))
    case Transfer(from, to, amount) =>
      if amount <= Free(c.ledger, from) then Outside(from, to, amount) else OnClient(Escrow.Stutter)
    case _ => OnClient(Escrow.Stutter)
  }

  /** `move` alone accounts for the change of the open deals from `c` to `c'`. */
  ghost predicate Records(self: ParaId, c: Chain, move: Move, c': Chain) {
    match move
    case OnClient(act) =>
      && Escrow.Records(c.now, XE.Deals(c.x), act, XE.Deals(c'.x))
      && SE.Deals(self, c'.s) == SE.Deals(self, c.s)
    case OnService(act) =>
      && Escrow.Records(c.now, SE.Deals(self, c.s), act, SE.Deals(self, c'.s))
      && XE.Deals(c'.x) == XE.Deals(c.x)
    case Outside(_, _, _) => XE.Deals(c'.x) == XE.Deals(c.x) && SE.Deals(self, c'.s) == SE.Deals(self, c.s)
  }

  /** And for the change of the ledger. */
  ghost predicate Pays(l: Ledger, move: Move, l': Ledger) {
    match move
    case OnClient(act) => Escrow.Pays(l, act, l')
    case OnService(act) => Escrow.Pays(l, act, l')
    case Outside(from, to, amount) => amount <= Free(l, from) && l' == Balances.Transfer(l, from, to, amount)
  }

  ghost predicate Moves(self: ParaId, c: Chain, move: Move, c': Chain) {
    Records(self, c, move, c') && Pays(c.ledger, move, c'.ledger)
  }

  /** What is reserved of `a` beyond what its open deals, in both pallets, need. */
  ghost function Slack(self: ParaId, c: Chain, a: AccountId): int {
    Reserved(c.ledger, a) - Escrow.Locked(XE.Deals(c.x), a) - Escrow.Locked(SE.Deals(self, c.s), a)
  }

  ghost predicate Backed(self: ParaId, c: Chain) {
    forall a :: Slack(self, c, a) >= 0
  }

  ghost predicate Engaged(c: Chain) {
    XE.Engaged(c.x) && SE.Engaged(c.s)
  }

  ghost predicate Sound(self: ParaId, c: Chain) {
    Engaged(c) && Backed(self, c)
  }

  lemma BackedCovers(self: ParaId, c: Chain)
    requires Backed(self, c)
    ensures Escrow.Covers(c.ledger, XE.Deals(c.x)) && Escrow.Covers(c.ledger, SE.Deals(self, c.s))
  {
    forall d, a | d in XE.Deals(c.x)
      ensures Escrow.Share(XE.Deals(c.x)[d], a) <= Reserved(c.ledger, a)
    {
      assert Slack(self, c, a) >= 0;
      Escrow.LockedAtLeast(XE.Deals(c.x), d, a);
    }
    forall d, a | d in SE.Deals(self, c.s)
      ensures Escrow.Share(SE.Deals(self, c.s)[d], a) <= Reserved(c.ledger, a)
    {
      assert Slack(self, c, a) >= 0;
      Escrow.LockedAtLeast(SE.Deals(self, c.s), d, a);
    }
  }

  /** What both escrows' books need of a call, and what their money needs besides. */
  ghost predicate CallMoves(self: ParaId, c: Chain, call: Call, c': Chain) {
    && Engaged(c') && Records(self, c, MoveOf(self, c, call), c')
    && (Backed(self, c) && Faithful(c, call) ==> Pays(c.ledger, MoveOf(self, c, call), c'.ledger))
  }

  lemma ClientStepMoves(self: ParaId, c: Chain, call: Call, act: Escrow.Action)
    requires Engaged(c) && call.OfClientPallet() && MoveOf(self, c, call) == OnClient(act)
    requires var step := XStep(c, call);
      && XE.Engaged(step.state) && Escrow.Records(c.now, XE.Deals(c.x), act, XE.Deals(step.state))
      && (Backed(self, c) && Faithful(c, call) ==> Escrow.Pays(c.ledger, act, step.ledger))
    ensures CallMoves(self, c, call, AfterX(c, XStep(c, call)).chain)
  {
    hide XStep, MoveOf, Escrow.Records, Escrow.Pays, Backed, Faithful, XE.Engaged, SE.Engaged;
  }

  lemma ClientMessageMoves(self: ParaId, c: Chain, msg: XcmpMessage)
    requires Engaged(c)
    ensures CallMoves(self, c, XHandle(msg), AfterX(c, XStep(c, XHandle(msg))).chain)
  {
    if Backed(self, c) {
      BackedCovers(self, c);
    }
    hide CallMoves, Backed, Escrow.Covers, X.HandleStep, XE.EndAction;
    XE.HandleMoves(c.ledger, c.x, c.now, msg);
    ClientStepMoves(self, c, XHandle(msg), XE.HandleAction(c.now, c.x, XStep(c, XHandle(msg)), msg));
  }

  lemma ClientOwnCallMoves(self: ParaId, c: Chain, call: Call)
    requires Engaged(c) && call.OfClientPallet() && !call.XHandle?
    ensures CallMoves(self, c, call, AfterX(c, XStep(c, call)).chain)
  {
    if Backed(self, c) {
      BackedCovers(self, c);
    }
    hide CallMoves, Backed, Escrow.Covers, X.OrderStep, X.CancelStep, X.RegisterStep;
    match call
    case XOrder(who, order) => XE.OrderMoves(c.ledger, c.x, c.now, who, order);
    case XCancel(who, device) => XE.CancelMoves(c.ledger, c.x, c.now, who, device);
    case XRegister(id, para, penalty, wcd, onoff) =>
      XE.RegisterMoves(c.ledger, c.x, id, para, penalty, wcd, onoff);
    case XKilled(who) => XE.KilledMoves(c.x, who);
    ClientStepMoves(self, c, call, MoveOf(self, c, call).act);
  }

  lemma ClientCallMoves(self: ParaId, c: Chain, call: Call)
    requires Engaged(c) && call.OfClientPallet()
    ensures CallMoves(self, c, call, AfterX(c, XStep(c, call)).chain)
  {
    hide CallMoves, XStep;
    if call.XHandle? {
      ClientMessageMoves(self, c, call.msg);
    } else {
      ClientOwnCallMoves(self, c, call);
    }
  }

  lemma ServiceCallMoves(self: ParaId, c: Chain, call: Call)
    requires Engaged(c) && Allowed(c, call) && call.OfServicePallet()
    ensures CallMoves(self, c, call, AfterS(c, SStep(self, c, call)).chain)
  {
    if Backed(self, c) {
      BackedCovers(self, c);
    }
    match call
    case SOrder(who, order, answer) =>
      SE.ReceiveMoves(self, c.ledger, c.s, c.now, order.Convert(who).(paraid := self), order.device, answer);
    case SCancel(who, device) => SE.CancelMoves(self, c.ledger, c.s, c.now, who, device);
    case SAccept(id, reject, onoff) => SE.AcceptMoves(self, c.ledger, c.s, c.now, id, reject, onoff);
    case SDone(id, onoff) => SE.DoneMoves(self, c.ledger, c.s, c.now, id, onoff);
    case SRegister(id, penalty, wcd, onoff) =>
      SE.RegisterMoves(self, c.ledger, c.s, id, penalty, wcd, onoff);
    case SSetState(id, onoff) => SE.SetStateMoves(self, c.ledger, c.s, id, onoff);
    case SKilled(who) => SE.KilledMoves(self, c.s, who);
    case SHandle(sender, msg, answer) =>
      if msg.NewOrder? {
        SE.ReceiveMoves(self, c.ledger, c.s, c.now,
          msg.order.Convert(msg.client).(paraid := sender), msg.order.device, answer);
      }
  }

  /** A move keeps every account's books: its wealth changes by its payoff, its slack by what
      a half-finished placement strands. */
  lemma MovesKeepBooks(self: ParaId, c: Chain, move: Move, c': Chain, a: AccountId)
    requires Moves(self, c, move, c')
    ensures Wealth(c'.ledger, a) == Wealth(c.ledger, a) + move.Payoff(a)
    ensures Slack(self, c', a) == Slack(self, c, a) + move.Stranded(a)
  {
    match move
    case OnClient(act) =>
      Escrow.MovesTrackLocked(c.now, c.ledger, XE.Deals(c.x), act, c'.ledger, XE.Deals(c'.x), a);
    case OnService(act) =>
      Escrow.MovesTrackLocked(c.now, c.ledger, SE.Deals(self, c.s), act, c'.ledger, SE.Deals(self, c'.s), a);
    case Outside(_, _, _) =>
  }

  /** Whatever messages arrive and however little money there is, every call is one move of the
      book of open deals, and ordered devices stay engaged. */
  lemma DispatchRecords(self: ParaId, c: Chain, call: Call)
    requires Engaged(c) && Allowed(c, call)
    ensures CallMoves(self, c, call, Dispatch(self, c, call).chain)
  {
    hide CallMoves;
    if call.OfClientPallet() {
      ClientCallMoves(self, c, call);
    } else if call.OfServicePallet() {
      ServiceCallMoves(self, c, call);
    } else {
      OutsideCallMoves(self, c, call);
    }
  }

  lemma OutsideCallMoves(self: ParaId, c: Chain, call: Call)
    requires Engaged(c) && (call.Transfer? || call.Tick?)
    ensures CallMoves(self, c, call, Dispatch(self, c, call).chain)
  {
  }

  /** Every call of a sound chain is one move of its escrow and leaves the chain sound. */
  lemma DispatchMoves(self: ParaId, c: Chain, call: Call)
    requires Sound(self, c) && Allowed(c, call) && Faithful(c, call)
    ensures var c' := Dispatch(self, c, call).chain;
      Sound(self, c') && Moves(self, c, MoveOf(self, c, call), c')
  {
    hide Dispatch, MoveOf;
    var c' := Dispatch(self, c, call).chain;
    DispatchRecords(self, c, call);
    forall a
      ensures Slack(self, c', a) >= 0
    {
      assert Slack(self, c, a) >= 0;
      MovesKeepBooks(self, c, MoveOf(self, c, call), c', a);
    }
  }
}
