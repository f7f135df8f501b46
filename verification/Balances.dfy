/** The part of the balances ledger the pallets use: a free and a reserved amount per
    account. An account without an entry holds nothing. */
module Balances {
  import opened Common
  import opened Totals

  datatype AccountData = AccountData(free: Balance, reserved: Balance)

  type Ledger = map<AccountId, AccountData>

  function Free(l: Ledger, who: AccountId): Balance {
    if who in l then l[who].free else 0
  }

  function Reserved(l: Ledger, who: AccountId): Balance {
    if who in l then l[who].reserved else 0
  }

  function Wealth(l: Ledger, who: AccountId): Balance {
    Free(l, who) + Reserved(l, who)
  }

  function Min(a: nat, b: nat): nat {
    if a < b then a else b
  }

  predicate CanReserve(l: Ledger, who: AccountId, value: Balance) {
    value <= Free(l, who)
  }

  function Reserve(l: Ledger, who: AccountId, value: Balance): (l': Ledger)
    requires CanReserve(l, who, value)
    ensures forall a :: Free(l', a) == Free(l, a) - if a == who then value else 0
    ensures forall a :: Reserved(l', a) == Reserved(l, a) + if a == who then value else 0
  {
    if value == 0 then l
    else l[who := AccountData(Free(l, who) - value, Reserved(l, who) + value)]
  }

  /** Best effort: moves what there is, up to `value`, and reports no shortfall. */
  function Unreserve(l: Ledger, who: AccountId, value: Balance): (l': Ledger)
    ensures var moved := Min(value, Reserved(l, who));
      && (forall a :: Free(l', a) == Free(l, a) + if a == who then moved else 0)
      && (forall a :: Reserved(l', a) == Reserved(l, a) - if a == who then moved else 0)
  {
    var moved := Min(value, Reserved(l, who));
    if moved == 0 then l
    else l[who := AccountData(Free(l, who) + moved, Reserved(l, who) - moved)]
  }

  /** Best effort likewise, from one account's reserve to another's free balance. */
  function RepatriateReserved(l: Ledger, from: AccountId, to: AccountId, value: Balance): (l': Ledger)
    ensures var moved := Min(value, Reserved(l, from));
      && (forall a :: Free(l', a) == Free(l, a) + if a == to then moved else 0)
      && (forall a :: Reserved(l', a) == Reserved(l, a) - if a == from then moved else 0)
  {
    var moved := Min(value, Reserved(l, from));
    if from == to || moved == 0 then Unreserve(l, from, moved)
    else
      var taken := l[from := AccountData(Free(l, from), Reserved(l, from) - moved)];
      taken[to := AccountData(Free(taken, to) + moved, Reserved(taken, to))]
  }

  /** First the fee goes from the reserve of `who` to the free balance of `payee`, then the penalty
      from the reserve of `device` to that of `winner`, each as far as the reserve goes; and
      nothing else moves. */
  ghost predicate Draws(
    l: Ledger, who: AccountId, payee: AccountId, fee: Balance, device: AccountId, winner: AccountId, penalty: Balance,
    l': Ledger)
  {
    var paid := if fee < Reserved(l, who) then fee else Reserved(l, who);
    var left := Reserved(l, device) - if device == who then paid else 0;
    var forfeit := if penalty < left then penalty else left;
    && (forall a ::
      Free(l', a) == Free(l, a) + (if a == payee then paid else 0) + (if a == winner then forfeit else 0))
    && (forall a ::
      Reserved(l', a) == Reserved(l, a) - (if a == who then paid else 0) - (if a == device then forfeit else 0))
  }

  lemma PaymentDraws(
    l: Ledger, who: AccountId, fee: Balance, device: AccountId, winner: AccountId, penalty: Balance)
    ensures var paid := RepatriateReserved(l, who, device, fee);
      && Draws(l, who, device, fee, device, winner, penalty, RepatriateReserved(paid, device, winner, penalty))
      && Draws(l, who, device, fee, device, device, penalty, Unreserve(paid, device, penalty))
  {
    hide Unreserve, RepatriateReserved, Free, Reserved;
  }

  lemma RefundDraws(
    l: Ledger, who: AccountId, fee: Balance, device: AccountId, winner: AccountId, penalty: Balance)
    ensures var refunded := Unreserve(l, who, fee);
      && Draws(l, who, who, fee, device, winner, penalty, RepatriateReserved(refunded, device, winner, penalty))
      && Draws(l, who, who, fee, device, device, penalty, Unreserve(refunded, device, penalty))
  {
    hide Unreserve, RepatriateReserved, Free, Reserved;
  }

  /** A plain transfer by an account holder, which no pallet here makes: the environment. */
  function Transfer(l: Ledger, from: AccountId, to: AccountId, value: Balance): (l': Ledger)
    requires value <= Free(l, from)
    ensures forall a :: Reserved(l', a) == Reserved(l, a)
    ensures forall a ::
      Free(l', a) == Free(l, a) - (if a == from then value else 0) + (if a == to then value else 0)
  {
    if value == 0 then l
    else
      var taken := l[from := AccountData(Free(l, from) - value, Reserved(l, from))];
      taken[to := AccountData(Free(taken, to) + value, Reserved(taken, to))]
  }

  // Total issuance

  ghost function Wealths(l: Ledger): map<AccountId, nat> {
    map a | a in l :: l[a].free + l[a].reserved
  }

  ghost function Issuance(l: Ledger): nat {
    Total(Wealths(l))
  }

  lemma IssuanceUpdate(l: Ledger, who: AccountId, data: AccountData)
    ensures Issuance(l[who := data]) == Issuance(l) - Wealth(l, who) + data.free + data.reserved
  {
    assert Wealths(l[who := data]) == Wealths(l)[who := data.free + data.reserved];
    TotalUpdate(Wealths(l), who, data.free + data.reserved);
  }

  lemma NobodyExceedsIssuance(l: Ledger, who: AccountId)
    ensures Wealth(l, who) <= Issuance(l)
  {
    if who in l {
      TotalRemove(Wealths(l), who);
    }
  }

  lemma ReserveConserves(l: Ledger, who: AccountId, value: Balance)
    requires CanReserve(l, who, value)
    ensures Issuance(Reserve(l, who, value)) == Issuance(l)
  {
    if value > 0 {
      IssuanceUpdate(l, who, AccountData(Free(l, who) - value, Reserved(l, who) + value));
    }
  }

  lemma UnreserveConserves(l: Ledger, who: AccountId, value: Balance)
    ensures Issuance(Unreserve(l, who, value)) == Issuance(l)
  {
    var moved := Min(value, Reserved(l, who));
    if moved > 0 {
      IssuanceUpdate(l, who, AccountData(Free(l, who) + moved, Reserved(l, who) - moved));
    }
  }

  lemma RepatriateConserves(l: Ledger, from: AccountId, to: AccountId, value: Balance)
    ensures Issuance(RepatriateReserved(l, from, to, value)) == Issuance(l)
  {
    var moved := Min(value, Reserved(l, from));
    if from == to || moved == 0 {
      UnreserveConserves(l, from, moved);
    } else {
      var less := AccountData(Free(l, from), Reserved(l, from) - moved);
      var taken := l[from := less];
      IssuanceUpdate(l, from, less);
      IssuanceUpdate(taken, to, AccountData(Free(taken, to) + moved, Reserved(taken, to)));
    }
  }

  lemma TransferConserves(l: Ledger, from: AccountId, to: AccountId, value: Balance)
    requires value <= Free(l, from)
    ensures Issuance(Transfer(l, from, to, value)) == Issuance(l)
  {
    if value > 0 {
      var less := AccountData(Free(l, from) - value, Reserved(l, from));
      var taken := l[from := less];
      IssuanceUpdate(l, from, less);
      IssuanceUpdate(taken, to, AccountData(Free(taken, to) + value, Reserved(taken, to)));
    }
  }

  // Free money

  ghost function Frees(l: Ledger): map<AccountId, nat> {
    map a | a in l :: l[a].free
  }

  ghost function TotalFree(l: Ledger): nat {
    Total(Frees(l))
  }

  /** What changes for two accounts changes the total. */
  lemma TotalFreeChanges(l: Ledger, l': Ledger, a: AccountId, da: int, b: AccountId, db: int)
    requires Free(l, a) + da >= 0
    requires forall x :: Free(l', x) == Free(l, x) + (if x == a then da else 0) + (if x == b then db else 0)
    ensures TotalFree(l') == TotalFree(l) + da + db
  {
    var first := Frees(l)[a := Free(l, a) + da];
    var second := first[b := Free(l', b)];
    TotalUpdate(Frees(l), a, Free(l, a) + da);
    TotalUpdate(first, b, Free(l', b));
    assert At(first, b) == Free(l', b) - db;
    assert forall x :: At(Frees(l'), x) == Free(l', x);
    assert forall x :: At(second, x) == Free(l', x);
    TotalOfSame(Frees(l'), second);
  }

  lemma TwoBelowTotalFree(l: Ledger, a: AccountId, b: AccountId)
    requires a != b
    ensures Free(l, a) + Free(l, b) <= TotalFree(l)
  {
    if a in l {
      TotalRemove(Frees(l), a);
    }
    if b in l {
      TotalRemove(Frees(l) - {a}, b);
      assert a !in l ==> Frees(l) - {a} == Frees(l);
    }
  }

  lemma OneHasAll(l: Ledger, a: AccountId)
    requires forall b :: b != a ==> Free(l, b) == 0
    ensures TotalFree(l) == Free(l, a)
  {
    TotalUpdate(map[], a, Free(l, a));
    assert forall b :: At(Frees(l), b) == Free(l, b);
    TotalOfSame(Frees(l), map[][a := Free(l, a)]);
  }
}

module Currencies {
  import opened Common
  import opened Balances

  /** The ledger as the object both pallets of a chain share. */
  class Currency {
    var accounts: Ledger

    constructor (accounts: Ledger)
      ensures this.accounts == accounts
    {
      this.accounts := accounts;
    }

    method Reserve(who: AccountId, value: Balance) returns (r: Outcome)
      modifies this
      ensures r == if CanReserve(old(accounts), who, value) then Ok else Err(InsufficientBalance)
      ensures accounts ==
        if r.Ok? then Balances.Reserve(old(accounts), who, value) else old(accounts)
    {
      if Free(accounts, who) < value {
        return Err(InsufficientBalance);
      }
      if value > 0 {
        accounts := accounts[who := AccountData(Free(accounts, who) - value, Reserved(accounts, who) + value)];
      }
      return Ok;
    }

    method Unreserve(who: AccountId, value: Balance)
      modifies this
      ensures accounts == Balances.Unreserve(old(accounts), who, value)
    {
      var moved := Min(value, Reserved(accounts, who));
      if moved > 0 {
        accounts := accounts[who := AccountData(Free(accounts, who) + moved, Reserved(accounts, who) - moved)];
      }
    }

    method RepatriateReserved(from: AccountId, to: AccountId, value: Balance)
      modifies this
      ensures accounts == Balances.RepatriateReserved(old(accounts), from, to, value)
    {
      var moved := Min(value, Reserved(accounts, from));
      if from == to || moved == 0 {
        Unreserve(from, moved);
      } else {
        accounts := accounts[from := AccountData(Free(accounts, from), Reserved(accounts, from) - moved)];
        accounts := accounts[to := AccountData(Free(accounts, to) + moved, Reserved(accounts, to))];
      }
    }
  }
}
