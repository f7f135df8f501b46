/** A batch handed to a pallet's message handler is a run of single deliveries. */
module Batches {
  import opened Common
  import opened Chains
  import opened Network
  import opened Runs
  import X = XChange
  import S = XChangeService

  /** The decoded items a sequence of envelopes arrives as. */
  function Items(envs: seq<Envelope>): seq<Item> {
    seq(|envs|, i requires 0 <= i < |envs| => Decoded(envs[i].from, envs[i].msg))
  }

  /** Delivering them one by one to the client pallet, or to the service pallet. */
  function ToClient(envs: seq<Envelope>): seq<Transition> {
    seq(|envs|, i requires 0 <= i < |envs| => Deliver(envs[i], false, None))
  }

  function ToService(envs: seq<Envelope>, answers: seq<Option<DeviceState>>): seq<Transition>
    requires |answers| == |envs|
  {
    seq(|envs|, i requires 0 <= i < |envs| => Deliver(envs[i], true, answers[i]))
  }

  function AllPackets(from: ParaId, outbox: seq<Sent>): multiset<Envelope> {
    if outbox == [] then multiset{}
    else AllPackets(from, outbox[..|outbox| - 1]) + Packets(from, Some(outbox[|outbox| - 1]))
  }

  lemma PacketsAppend(from: ParaId, outbox: seq<Sent>, sent: Option<Sent>)
    ensures AllPackets(from, Appended(outbox, sent)) == AllPackets(from, outbox) + Packets(from, sent)
  {
    if sent.Some? {
      assert (outbox + [sent.value])[..|outbox|] == outbox;
    }
  }

  lemma DropLast(envs: seq<Envelope>)
    requires envs != []
    ensures var n := |envs| - 1;
      && envs == envs[..n] + [envs[n]] && multiset(envs) == multiset(envs[..n]) + multiset{envs[n]}
      && Items(envs)[..n] == Items(envs[..n])
  {
    var n := |envs| - 1;
    assert envs == envs[..n] + [envs[n]];
  }

  /** The system after chain `c` handled a batch with this outcome. */
  function AfterBatch(
    sys: System, c: ParaId, chain: Chain, envs: seq<Envelope>, out: seq<Sent>): System
  {
    System(sys.chains[c := chain], sys.net - multiset(envs) + AllPackets(c, out))
  }

  function ClientOutcome(chain: Chain, items: seq<Item>): Chain
    requires forall item <- items :: item.Decoded?
  {
    var (l, x) := X.HandleAll(chain.ledger, chain.x, chain.now, items);
    chain.(ledger := l, x := x)
  }

  lemma DeliverToService(sys: System, e: Envelope, answer: Option<DeviceState>)
    requires e in sys.net && e.to in sys.chains && e.msg.NewOrder? && S.HookAnswer(answer)
    ensures Enabled(sys, Deliver(e, true, answer))
    ensures var c := sys.chains[e.to];
      var step := S.HandleStep(e.to, c.ledger, c.s, c.now, e.from, e.msg, answer);
      Next(sys, Deliver(e, true, answer)) ==
        System(sys.chains[e.to := AfterS(c, step).chain], sys.net - multiset{e} + Packets(e.to, step.sent))
  {
    hide S.HandleStep, Packets;
  }

  lemma DeliverToClient(sys: System, e: Envelope)
    requires e in sys.net && e.to in sys.chains
    requires var c := sys.chains[e.to]; X.HandleStep(c.ledger, c.x, c.now, e.msg).sent.None?
    ensures Enabled(sys, Deliver(e, false, None))
    ensures var c := sys.chains[e.to];
      var step := X.HandleStep(c.ledger, c.x, c.now, e.msg);
      Next(sys, Deliver(e, false, None)) ==
        System(sys.chains[e.to := AfterX(c, step).chain], sys.net - multiset{e})
  {
    hide X.HandleStep;
  }

  /** Taking the last message off the network after the others takes all of them off. */
  lemma NetWithout(net: multiset<Envelope>, rest: multiset<Envelope>, envs: seq<Envelope>, n: nat)
    requires |envs| == n + 1 && multiset(envs) <= net
    ensures envs[n] in net - multiset(envs[..n]) + rest
    ensures net - multiset(envs[..n]) + rest - multiset{envs[n]} == net - multiset(envs) + rest
  {
    DropLast(envs);
    var others, one := multiset(envs[..n]), multiset{envs[n]};
    assert multiset(envs) == others + one;
    assert net - (others + one) + rest == net - others + rest - one by {
      forall e
        ensures (net - (others + one) + rest)[e] == (net - others + rest - one)[e]
      {
        assert (others + one)[e] <= net[e];
      }
    }
    assert (others + one)[envs[n]] <= net[envs[n]];
  }

  lemma ClientOutcomeLast(chain: Chain, envs: seq<Envelope>, n: nat)
    requires |envs| == n + 1
    ensures var before := ClientOutcome(chain, Items(envs[..n]));
      var step := X.HandleStep(before.ledger, before.x, before.now, envs[n].msg);
      ClientOutcome(chain, Items(envs)) == AfterX(before, step).chain && step.sent.None?
  {
    DropLast(envs);
  }

  lemma ClientBatchStep(sys: System, c: ParaId, envs: seq<Envelope>, n: nat, before: Chain, after: Chain)
    requires c in sys.chains && |envs| == n + 1 && multiset(envs) <= sys.net && envs[n].to == c
    requires
      var step := X.HandleStep(before.ledger, before.x, before.now, envs[n].msg);
      after == AfterX(before, step).chain && step.sent.None?
    ensures var t, sys' := Deliver(envs[n], false, None), AfterBatch(sys, c, before, envs[..n], []);
      Enabled(sys', t) && Next(sys', t) == AfterBatch(sys, c, after, envs, [])
  {
    hide X.HandleStep, Next, Enabled;
    var sys' := AfterBatch(sys, c, before, envs[..n], []);
    NetWithout(sys.net, multiset{}, envs, n);
    DeliverToClient(sys', envs[n]);
    assert sys'.chains[c := after] == sys.chains[c := after];
  }

  /** `states` are the states of delivering `envs` to the client pallet of `c` one by one, and
      the last is that of handling them as a batch. */
  ghost predicate RunsClientBatch(sys: System, c: ParaId, envs: seq<Envelope>, states: seq<System>)
    requires c in sys.chains
  {
    && IsSegment(states, ToClient(envs)) && states[0] == sys
    && states[|envs|] == AfterBatch(sys, c, ClientOutcome(sys.chains[c], Items(envs)), envs, [])
  }

  lemma ClientBatchExtends(sys: System, c: ParaId, envs: seq<Envelope>, n: nat, states: seq<System>)
    requires c in sys.chains && |envs| == n + 1 && multiset(envs) <= sys.net && envs[n].to == c
    requires RunsClientBatch(sys, c, envs[..n], states)
    ensures Enabled(states[n], Deliver(envs[n], false, None))
    ensures RunsClientBatch(sys, c, envs, states + [Next(states[n], Deliver(envs[n], false, None))])
  {
    hide Next, Enabled, AfterBatch, ClientOutcome;
    ClientOutcomeLast(sys.chains[c], envs, n);
    ClientBatchStep(sys, c, envs, n,
      ClientOutcome(sys.chains[c], Items(envs[..n])), ClientOutcome(sys.chains[c], Items(envs)));
    ExtendSegment(states, ToClient(envs[..n]), Deliver(envs[n], false, None));
    assert ToClient(envs) == ToClient(envs[..n]) + [Deliver(envs[n], false, None)];
  }

  /** The client pallet's batch is a run of deliveries to it: same ledger, same pallet. */
  lemma {:induction false} ClientBatchIsDeliveries(sys: System, c: ParaId, envs: seq<Envelope>)
    returns (states: seq<System>)
    requires c in sys.chains && multiset(envs) <= sys.net && forall e :: e in envs ==> e.to == c
    ensures RunsClientBatch(sys, c, envs, states)
    decreases |envs|
  {
    if envs == [] {
      states := [sys];
      assert sys.chains[c := sys.chains[c]] == sys.chains && sys.net - multiset(envs) + multiset{} == sys.net;
    } else {
      var n := |envs| - 1;
      hide RunsClientBatch, Next, Enabled;
      DropLast(envs);
      states := ClientBatchIsDeliveries(sys, c, envs[..n]);
      ClientBatchExtends(sys, c, envs, n, states);
      states := states + [Next(states[n], Deliver(envs[n], false, None))];
    }
  }

  function ServiceOutcome(c: ParaId, chain: Chain, items: seq<Item>, answers: seq<Option<DeviceState>>)
    : (Chain, seq<Sent>)
    requires |answers| == |items| && forall item <- items :: S.Handled(item)
  {
    var (l, s, out) := S.HandleAll(c, chain.ledger, chain.s, [], chain.now, items, answers);
    (chain.(ledger := l, s := s), out)
  }

  predicate AllNewOrders(envs: seq<Envelope>, c: ParaId) {
    forall i :: 0 <= i < |envs| ==> envs[i].to == c && envs[i].msg.NewOrder?
  }

  lemma ItemsHandled(envs: seq<Envelope>, c: ParaId)
    requires AllNewOrders(envs, c)
    ensures forall item :: item in Items(envs) ==> S.Handled(item)
  {
  }

  lemma ServiceOutcomeLast(
    c: ParaId, chain: Chain, envs: seq<Envelope>, answers: seq<Option<DeviceState>>, n: nat)
    requires |envs| == |answers| == n + 1 && AllNewOrders(envs, c)
    ensures (forall item <- Items(envs[..n]) :: S.Handled(item)) && forall item <- Items(envs) :: S.Handled(item)
    ensures var (before, out) := ServiceOutcome(c, chain, Items(envs[..n]), answers[..n]);
      var step := S.HandleStep(c, before.ledger, before.s, before.now, envs[n].from, envs[n].msg, answers[n]);
      ServiceOutcome(c, chain, Items(envs), answers) == (AfterS(before, step).chain, Appended(out, step.sent))
  {
    hide S.HandleStep;
    DropLast(envs);
    ItemsHandled(envs, c);
    ItemsHandled(envs[..n], c);
  }

  lemma Reassociate(a: multiset<Envelope>, b: multiset<Envelope>, c: multiset<Envelope>)
    ensures a + b + c == a + (b + c)
  {
  }

  lemma ServiceBatchStep(
    sys: System, c: ParaId, envs: seq<Envelope>, answers: seq<Option<DeviceState>>, n: nat,
    before: (Chain, seq<Sent>), after: (Chain, seq<Sent>))
    requires c in sys.chains && |envs| == |answers| == n + 1 && multiset(envs) <= sys.net
    requires AllNewOrders(envs, c) && S.HookAnswer(answers[n])
    requires
      var chain := before.0;
      var step := S.HandleStep(c, chain.ledger, chain.s, chain.now, envs[n].from, envs[n].msg, answers[n]);
      after == (AfterS(chain, step).chain, Appended(before.1, step.sent))
    ensures var t, sys' := Deliver(envs[n], true, answers[n]), AfterBatch(sys, c, before.0, envs[..n], before.1);
      Enabled(sys', t) && Next(sys', t) == AfterBatch(sys, c, after.0, envs, after.1)
  {
    hide S.HandleStep, Next, Enabled, Packets, AllPackets;
    var (chain, out) := before;
    var sys' := AfterBatch(sys, c, chain, envs[..n], out);
    var sent := S.HandleStep(c, chain.ledger, chain.s, chain.now, envs[n].from, envs[n].msg, answers[n]).sent;
    NetWithout(sys.net, AllPackets(c, out), envs, n);
    DeliverToService(sys', envs[n], answers[n]);
    PacketsAppend(c, out, sent);
    Reassociate(sys.net - multiset(envs), AllPackets(c, out), Packets(c, sent));
    assert sys'.chains[c := after.0] == sys.chains[c := after.0];
  }

  /** The same for the service pallet, with the hook's answers and the messages sent. */
  ghost predicate RunsServiceBatch(
    sys: System, c: ParaId, envs: seq<Envelope>, answers: seq<Option<DeviceState>>, states: seq<System>)
    requires c in sys.chains && |answers| == |envs|
  {
    && IsSegment(states, ToService(envs, answers)) && states[0] == sys
    && (forall item <- Items(envs) :: S.Handled(item))
    && var (chain, out) := ServiceOutcome(c, sys.chains[c], Items(envs), answers);
    states[|envs|] == AfterBatch(sys, c, chain, envs, out)
  }

  lemma ServiceBatchExtends(
    sys: System, c: ParaId, envs: seq<Envelope>, answers: seq<Option<DeviceState>>, n: nat, states: seq<System>)
    requires c in sys.chains && |envs| == |answers| == n + 1 && multiset(envs) <= sys.net
    requires AllNewOrders(envs, c) && S.HookAnswer(answers[n])
    requires RunsServiceBatch(sys, c, envs[..n], answers[..n], states)
    ensures Enabled(states[n], Deliver(envs[n], true, answers[n]))
    ensures RunsServiceBatch(sys, c, envs, answers, states + [Next(states[n], Deliver(envs[n], true, answers[n]))])
  {
    hide Next, Enabled, AfterBatch, ServiceOutcome;
    ServiceOutcomeLast(c, sys.chains[c], envs, answers, n);
    ServiceBatchStep(sys, c, envs, answers, n,
      ServiceOutcome(c, sys.chains[c], Items(envs[..n]), answers[..n]),
      ServiceOutcome(c, sys.chains[c], Items(envs), answers));
    ExtendSegment(states, ToService(envs[..n], answers[..n]), Deliver(envs[n], true, answers[n]));
    assert ToService(envs, answers) == ToService(envs[..n], answers[..n]) + [Deliver(envs[n], true, answers[n])];
  }

  /** The service pallet's batch of new orders is a run of deliveries to it: same ledger, same
      pallet, and the same messages sent. */
  lemma {:induction false} ServiceBatchIsDeliveries(
    sys: System, c: ParaId, envs: seq<Envelope>, answers: seq<Option<DeviceState>>)
    returns (states: seq<System>)
    requires c in sys.chains && multiset(envs) <= sys.net && AllNewOrders(envs, c)
    requires |answers| == |envs| && forall i :: 0 <= i < |answers| ==> S.HookAnswer(answers[i])
    ensures RunsServiceBatch(sys, c, envs, answers, states)
    decreases |envs|
  {
    if envs == [] {
      states := [sys];
      assert sys.chains[c := sys.chains[c]] == sys.chains && sys.net - multiset(envs) + multiset{} == sys.net;
    } else {
      var n := |envs| - 1;
      hide RunsServiceBatch, Next, Enabled;
      DropLast(envs);
      states := ServiceBatchIsDeliveries(sys, c, envs[..n], answers[..n]);
      ServiceBatchExtends(sys, c, envs, answers, n, states);
      states := states + [Next(states[n], Deliver(envs[n], true, answers[n]))];
    }
  }
}
