/** The vocabulary both pallets share (pallets/common/src/lib.rs), with the integer types
    of the runtime read as natural numbers. */
module Common {
  type AccountId = nat
  type ParaId = nat
  type Balance = nat
  type Moment = nat
  type Payload = nat

  datatype Option<+T> = None | Some(value: T)

  datatype DeviceState = Off | Ready | Busy | Accepted | Timewait

  /** An order as a client writes it: the device is named, the client is not. */
  datatype OrderBase = OrderBase(until: Moment, data: Payload, fee: Balance, device: AccountId) {
    /** The stored form; the source parachain is left at its default, 0. */
    function Convert(client: AccountId): Order {
      Order(until, data, fee, client, 0)
    }
  }

  /** An order as a pallet stores it under its device: the client and the parachain it
      came from are named, the device is the storage key. */
  datatype Order = Order(until: Moment, data: Payload, fee: Balance, client: AccountId, paraid: ParaId) {
    function Convert(device: AccountId): OrderBase {
      OrderBase(until, data, fee, device)
    }
  }

  datatype XcmpMessage =
    | NewOrder(client: AccountId, order: OrderBase)
    | OrderAccept(client: AccountId, device: AccountId)
    | OrderReject(client: AccountId, device: AccountId, onoff: bool)
    | OrderDone(client: AccountId, device: AccountId, onoff: bool)
  {
    /** A message that ends the client-side order it names. */
    predicate Terminal() {
      OrderReject? || OrderDone?
    }
  }

  /** One element of an incoming batch: bytes that decode to a message from `sender`, or not. */
  datatype Item = Undecodable | Decoded(sender: ParaId, msg: XcmpMessage)

  /** A message handed to the router, with the parachain it is addressed to. */
  datatype Sent = Sent(dest: ParaId, msg: XcmpMessage)

  datatype Error =
    | Overdue
    | IllegalState
    | NoDevice
    | NoOrder
    | BadOrderDetails
    | DeviceLowBail
    | DeviceExists
    | Prohibited
    | InsufficientBalance

  datatype Outcome = Ok | Err(error: Error)

  /** Where a device goes when an order of it ends. */
  function OnOff(onoff: bool): DeviceState {
    if onoff then Ready else Off
  }

  function Appended(outbox: seq<Sent>, sent: Option<Sent>): seq<Sent> {
    if sent.Some? then outbox + [sent.value] else outbox
  }

  /** What is sent goes out after all that was sent before. */
  lemma AppendedIsLast(outbox: seq<Sent>, sent: Option<Sent>)
    ensures var out := Appended(outbox, sent);
      && outbox <= out && |out| == |outbox| + (if sent.Some? then 1 else 0)
      && (sent.Some? ==> out[|outbox|] == sent.value)
  {
  }

  /** The two conversions undo each other except for the source parachain. */
  lemma ConvertRoundTrip(base: OrderBase, order: Order)
    ensures base.Convert(order.client).Convert(base.device) == base
    ensures order.Convert(base.device).Convert(order.client) == order <==> order.paraid == 0
  {
  }
}

/** Totals of the values of a finite map. */
module Totals {
  import opened Common

  function At(m: map<AccountId, nat>, k: AccountId): nat {
    if k in m then m[k] else 0
  }

  ghost function Total(m: map<AccountId, nat>): nat {
    if m == map[] then 0
    else
      var k :| k in m;
      m[k] + Total(m - {k})
  }

  /** Any key may be taken out first. */
  lemma {:induction false} TotalRemove(m: map<AccountId, nat>, k: AccountId)
    requires k in m
    ensures Total(m) == m[k] + Total(m - {k})
    decreases |m|
  {
    var j :| j in m && Total(m) == m[j] + Total(m - {j});
    if j != k {
      TotalRemove(m - {j}, k);
      TotalRemove(m - {k}, j);
      assert m - {j} - {k} == m - {k} - {j};
    }
  }

  lemma TotalUpdate(m: map<AccountId, nat>, k: AccountId, v: nat)
    ensures Total(m[k := v]) == Total(m) - At(m, k) + v
  {
    TotalRemove(m[k := v], k);
    assert m[k := v] - {k} == m - {k};
    if k in m {
      TotalRemove(m, k);
    } else {
      assert m - {k} == m;
    }
  }

  lemma TotalDrop(m: map<AccountId, nat>, k: AccountId)
    ensures Total(m) == At(m, k) + Total(m - {k})
    ensures |m - {k}| == |m| - if k in m then 1 else 0
  {
    if k in m {
      TotalRemove(m, k);
      assert (m - {k}).Keys == m.Keys - {k};
    } else {
      assert m - {k} == m;
    }
  }

  /** The same but for keys of value 0. */
  ghost predicate SameValues(m: map<AccountId, nat>, m': map<AccountId, nat>) {
    forall k :: At(m, k) == At(m', k)
  }

  lemma SameValue(m: map<AccountId, nat>, m': map<AccountId, nat>, k: AccountId)
    requires SameValues(m, m')
    ensures At(m, k) == At(m', k) && SameValues(m - {k}, m' - {k})
  {
    forall j
      ensures At(m - {k}, j) == At(m' - {k}, j)
    {
      assert At(m, j) == At(m', j);
      assert At(m - {k}, j) == if j == k then 0 else At(m, j);
      assert At(m' - {k}, j) == if j == k then 0 else At(m', j);
    }
  }

  lemma {:induction false} TotalOfSame(m: map<AccountId, nat>, m': map<AccountId, nat>)
    requires SameValues(m, m')
    ensures Total(m) == Total(m')
    decreases |m| + |m'|
  {
    if k :| k in m || k in m' {
      hide Total, At, SameValues;
      TotalDrop(m, k);
      TotalDrop(m', k);
      SameValue(m, m', k);
      TotalOfSame(m - {k}, m' - {k});
    } else {
      assert m == map[] == m';
    }
  }
}
