/** Any number of parachains and a network that may lose and reorder messages, and delivers
    none twice. */
module Network {
  import opened Common
  import opened Chains
  import X = XChange
  import S = XChangeService

  datatype Envelope = Envelope(from: ParaId, to: ParaId, msg: XcmpMessage)

  datatype System = System(chains: map<ParaId, Chain>, net: multiset<Envelope>)

  /** A call on a chain, a delivery to one of the two message handlers of the chain a message
      is addressed to, or the loss of a message. */
  datatype Transition =
    | Local(p: ParaId, call: Call)
    | Deliver(e: Envelope, toService: bool, answer: Option<DeviceState>)
    | Lose(e: Envelope)

  predicate Enabled(sys: System, t: Transition) {
    match t
    case Local(p, call) => p in sys.chains && !call.OfMessage() && Allowed(sys.chains[p], call)
    case Deliver(e, _, answer) => e in sys.net && e.to in sys.chains && S.HookAnswer(answer)
    case Lose(e) => e in sys.net
  }

  function Packets(from: ParaId, sent: Option<Sent>): multiset<Envelope> {
    if sent.None? then multiset{} else multiset{Envelope(from, sent.value.dest, sent.value.msg)}
  }

  function Act(sys: System, p: ParaId, call: Call): System
    requires p in sys.chains
  {
    var effect := Dispatch(p, sys.chains[p], call);
    System(sys.chains[p := effect.chain], sys.net + Packets(p, effect.sent))
  }

  /** The call a delivery amounts to. */
  function Handling(e: Envelope, toService: bool, answer: Option<DeviceState>): Call {
    if toService then SHandle(e.from, e.msg, answer) else XHandle(e.msg)
  }

  function Next(sys: System, t: Transition): System
    requires Enabled(sys, t)
  {
    match t
    case Local(p, call) => Act(sys, p, call)
    case Deliver(e, toService, answer) =>
      Act(sys.(net := sys.net - multiset{e}), e.to, Handling(e, toService, answer))
    case Lose(e) => sys.(net := sys.net - multiset{e})
  }

  // What is outstanding of the orders chain `c` placed with device `d`

  /** An order in flight that a service pallet may still take as a foreign one: it is addressed
      to another chain of the system, and its deadline there is ahead. */
  predicate CanArrive(sys: System, e: Envelope)
    requires e.msg.NewOrder?
  {
    e.to in sys.chains && e.to != e.from && sys.chains[e.to].now < e.msg.order.until
  }

  /** In flight: the order on its way out, or the reply that ends it on its way back. With
      `dead`, orders that can no longer be taken count too. */
  predicate IsToken(sys: System, e: Envelope, c: ParaId, d: AccountId, dead: bool) {
    || (e.msg.NewOrder? && e.from == c && e.msg.order.device == d && (dead || CanArrive(sys, e)))
    || (e.msg.Terminal() && e.to == c && e.msg.device == d)
  }

  /** Chain `p` holds an order for `d` that came from `c`. */
  predicate Held(sys: System, p: ParaId, c: ParaId, d: AccountId) {
    p in sys.chains && p != c && d in sys.chains[p].s.orders && sys.chains[p].s.orders[d].paraid == c
  }

  ghost predicate Quiescent(sys: System, c: ParaId, d: AccountId, dead: bool) {
    && (forall e :: e in sys.net ==> !IsToken(sys, e, c, d, dead))
    && (forall p :: !Held(sys, p, c, d))
  }

  /** At most one token, in flight or held. */
  ghost predicate Single(sys: System, c: ParaId, d: AccountId, dead: bool) {
    && (forall e :: e in sys.net && IsToken(sys, e, c, d, dead) ==> sys.net[e] == 1)
    && (forall e, e' :: e in sys.net && e' in sys.net ==>
      IsToken(sys, e, c, d, dead) && IsToken(sys, e', c, d, dead) ==> e == e')
    && (forall e, p :: e in sys.net && IsToken(sys, e, c, d, dead) ==> !Held(sys, p, c, d))
    && (forall p, q :: Held(sys, p, c, d) && Held(sys, q, c, d) ==> p == q)
  }

  predicate MatchesOrder(e: Envelope, order: Order, d: AccountId) {
    if e.msg.NewOrder? then e.msg == NewOrder(order.client, order.Convert(d))
    else e.msg.client == order.client
  }

  /** The token belongs to the live order if there is one; while there is a token the device
      cannot take another order. */
  ghost predicate TokenInv(sys: System, c: ParaId, d: AccountId, dead: bool)
    requires c in sys.chains
  {
    var x := sys.chains[c].x;
    && Single(sys, c, d, dead)
    && (X.IsReady(x, d) ==> Quiescent(sys, c, d, dead))
    && (d in x.orders ==>
      && (forall e :: e in sys.net && IsToken(sys, e, c, d, dead) ==> MatchesOrder(e, x.orders[d], d))
      && (forall p :: Held(sys, p, c, d) ==> sys.chains[p].s.orders[d] == x.orders[d].(paraid := c)))
  }

  /** The step registers a device as ready on its client chain, and is not refused. */
  predicate RegistersReady(sys: System, t: Transition) {
    && t.Local? && t.call.XRegister? && t.call.onoff
    && t.p in sys.chains && t.call.id !in sys.chains[t.p].x.orders
  }

  /** The environment assumption of chain `c`: a device registers there as ready only when
      nothing of its old order is outstanding. */
  ghost predicate Quiet(sys: System, t: Transition, c: ParaId, dead: bool) {
    RegistersReady(sys, t) && t.p == c ==> Quiescent(sys, c, t.call.id, dead)
  }

  /** What chain `c` relies on, whatever devices do on other chains. */
  ghost predicate Inv(sys: System, c: ParaId) {
    c in sys.chains && Sound(c, sys.chains[c]) && forall d :: TokenInv(sys, c, d, false)
  }
}
