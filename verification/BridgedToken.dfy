/** The bridged token: an EIP-20 token whose lock proxy is topped up whenever it has to pay. */
module BridgedToken {
  import opened Base
  import opened Sums
  import opened Erc20

  datatype State = State(ledger: Ledger, lockProxy: Address, owner: Address)

  datatype Op =
    | Mint(to: Address, amount: nat)
    | Burn(value: nat)
    | BurnFrom(account: Address, value: nat)
    | SetLockProxy(lockProxy: Address)
    | Transfer(to: Address, value: nat)
    | TransferFrom(from: Address, to: Address, value: nat)
    | Approve(spender: Address, value: nat)

  /** The top-up that precedes a payment by the lock proxy. */
  function TopUp(l: Ledger, lockProxy: Address, from: Address, to: Address, amount: nat): Option<Ledger> {
    if from != lockProxy then Some(l)
    else if to == lockProxy then None
    else if BalanceOf(l, lockProxy) < amount then Erc20.Mint(l, lockProxy, amount - BalanceOf(l, lockProxy))
    else Some(l)
  }

  /** The state after an operation; None when it reverts. */
  function Step(t: State, sender: Address, op: Op): Option<State> {
    var l := t.ledger;
    var after :=
      match op
      case Mint(to, amount) => if sender != t.owner then None else Erc20.Mint(l, to, amount)
      case Burn(value) => if sender != t.owner then None else Erc20.Burn(l, sender, value)
      case BurnFrom(account, value) => if sender != t.owner then None else Erc20.BurnFrom(l, sender, account, value)
      case SetLockProxy(_) => if sender != t.owner then None else Some(l)
      case Transfer(to, value) =>
        var topped := TopUp(l, t.lockProxy, sender, to, value);
        if topped.None? then None else Move(topped.value, sender, to, value)
      case TransferFrom(from, to, value) =>
        var topped := TopUp(l, t.lockProxy, from, to, value);
        if topped.None? then None else Erc20.TransferFrom(topped.value, sender, from, to, value)
      case Approve(spender, value) => Erc20.Approve(l, sender, spender, value);
    if after.None? then None
    else Some(t.(ledger := after.value, lockProxy := if op.SetLockProxy? then op.lockProxy else t.lockProxy))
  }

  function Run(t: State, calls: seq<(Address, Op)>): State {
    if calls == [] then t
    else
      var before := Run(t, calls[..|calls| - 1]);
      var (sender, op) := calls[|calls| - 1];
      var after := Step(before, sender, op);
      if after.Some? then after.value else before
  }

  /** A call either takes the step or reverts and leaves the state alone. */
  ghost predicate Outcome(before: State, sender: Address, op: Op, after: State, ok: bool) {
    && (ok <==> Step(before, sender, op).Some?)
    && after == if ok then Step(before, sender, op).value else before
  }

  function CirculatingSupply(t: State): int {
    t.ledger.totalSupply - BalanceOf(t.ledger, t.lockProxy)
  }

  class Token {
    const owner: Address
    var ledger: Ledger
    var lockProxyAddress: Address

    ghost function View(): State
      reads this
    {
      State(ledger, lockProxyAddress, owner)
    }

    constructor (sender: Address)
      ensures View() == State(Erc20.EMPTY, ZERO_ADDRESS, sender)
    {
      owner, ledger, lockProxyAddress := sender, Erc20.EMPTY, ZERO_ADDRESS;
    }

    method Transfer(sender: Address, to: Address, value: nat) returns (ok: bool)
      modifies this
      ensures Outcome(old(View()), sender, Op.Transfer(to, value), View(), ok)
    {
      var saved := ledger;
      ok := MintIfLockProxy(sender, to, value);
      if ok {
        ok := Commit(Move(ledger, sender, to, value));
      }
      if !ok {
        ledger := saved;
      }
    }

    method TransferFrom(sender: Address, from: Address, to: Address, value: nat) returns (ok: bool)
      modifies this
      ensures Outcome(old(View()), sender, Op.TransferFrom(from, to, value), View(), ok)
    {
      var saved := ledger;
      ok := MintIfLockProxy(from, to, value);
      if ok {
        ok := Commit(Erc20.TransferFrom(ledger, sender, from, to, value));
      }
      if !ok {
        ledger := saved;
      }
    }

    method Mint(sender: Address, to: Address, amount: nat) returns (ok: bool)
      modifies this
      ensures Outcome(old(View()), sender, Op.Mint(to, amount), View(), ok)
    {
      ok := OnlyOwner(sender, Erc20.Mint(ledger, to, amount));
    }

    method Burn(sender: Address, value: nat) returns (ok: bool)
      modifies this
      ensures Outcome(old(View()), sender, Op.Burn(value), View(), ok)
    {
      ok := OnlyOwner(sender, Erc20.Burn(ledger, sender, value));
    }

    method BurnFrom(sender: Address, account: Address, value: nat) returns (ok: bool)
      modifies this
      ensures Outcome(old(View()), sender, Op.BurnFrom(account, value), View(), ok)
    {
      ok := OnlyOwner(sender, Erc20.BurnFrom(ledger, sender, account, value));
    }

    method SetLockProxyAddress(sender: Address, lockProxy: Address) returns (ok: bool)
      modifies this
      ensures Outcome(old(View()), sender, SetLockProxy(lockProxy), View(), ok)
    {
      ok := sender == owner;
      if ok {
        lockProxyAddress := lockProxy;
      }
    }

    method Approve(sender: Address, spender: Address, value: nat) returns (ok: bool)
      modifies this
      ensures Outcome(old(View()), sender, Op.Approve(spender, value), View(), ok)
    {
      ok := Commit(Erc20.Approve(ledger, sender, spender, value));
    }

    method MintIfLockProxy(from: Address, to: Address, amount: nat) returns (ok: bool)
      modifies this`ledger
      ensures ok <==> TopUp(old(ledger), lockProxyAddress, from, to, amount).Some?
      ensures ledger == if ok then TopUp(old(ledger), lockProxyAddress, from, to, amount).value else old(ledger)
    {
      if from == lockProxyAddress {
        if to == lockProxyAddress {
          return false;
        }
        var balance := BalanceOf(ledger, lockProxyAddress);
        if balance < amount {
          ok := Commit(Erc20.Mint(ledger, lockProxyAddress, amount - balance));
          return;
        }
      }
      ok := true;
    }

    method OnlyOwner(sender: Address, after: Option<Ledger>) returns (ok: bool)
      modifies this`ledger
      ensures ok <==> sender == owner && after.Some?
      ensures ledger == if ok then after.value else old(ledger)
    {
      ok := false;
      if sender == owner {
        ok := Commit(after);
      }
    }

    method Commit(after: Option<Ledger>) returns (ok: bool)
      modifies this`ledger
      ensures ok <==> after.Some?
      ensures ledger == if ok then after.value else old(ledger)
    {
      ok := after.Some?;
      if ok {
        ledger := after.value;
      }
    }
  }

  // ----- properties

  lemma StepConserves(t: State, sender: Address, op: Op)
    requires Conserved(t.ledger) && Step(t, sender, op).Some?
    ensures Conserved(Step(t, sender, op).value.ledger)
    ensures !op.SetLockProxy? ==>
              CirculatingSupply(Step(t, sender, op).value) == CirculatingSupply(t) + CirculationChange(t, sender, op)
  {
    var l := t.ledger;
    match op {
      case Mint(to, amount) => MintConserves(l, to, amount);
      case Burn(value) => BurnConserves(l, sender, value);
      case BurnFrom(account, value) => BurnConserves(SpendAllowance(l, account, sender, value).value, account, value);
      case SetLockProxy(_) =>
      case Approve(_, _) =>
      case Transfer(to, value) =>
        PaymentConserves(l, t.lockProxy, sender, to, value, TopUp(l, t.lockProxy, sender, to, value).value);
      case TransferFrom(from, to, value) =>
        var topped := TopUp(l, t.lockProxy, from, to, value).value;
        PaymentConserves(l, t.lockProxy, from, to, value, SpendAllowance(topped, from, sender, value).value);
    }
  }

  /** A payment after its top-up; `ready` may differ from the topped-up ledger in allowances. */
  lemma PaymentConserves(l: Ledger, lockProxy: Address, from: Address, to: Address, value: nat, ready: Ledger)
    requires Conserved(l) && TopUp(l, lockProxy, from, to, value).Some?
    requires ready == TopUp(l, lockProxy, from, to, value).value.(allowances := ready.allowances)
    requires Move(ready, from, to, value).Some?
    ensures var paid := Move(ready, from, to, value).value;
            && Conserved(paid)
            && paid.totalSupply - BalanceOf(paid, lockProxy)
               == l.totalSupply - BalanceOf(l, lockProxy) + PaidBetween(lockProxy, from, to, value)
            && forall a :: a != lockProxy ==>
                             BalanceOf(paid, a) ==
                             BalanceOf(l, a) - (if a == from then value else 0) + (if a == to then value else 0)
  {
    TopUpConserves(l, lockProxy, from, to, value);
    MoveConserves(ready, from, to, value);
    assert BalanceOf(Move(ready, from, to, value).value, lockProxy) ==
           BalanceOf(ready, lockProxy) - PaidBetween(lockProxy, from, to, value);
  }

  /** A top-up changes nobody else's balance and keeps what circulates. */
  lemma TopUpConserves(l: Ledger, lockProxy: Address, from: Address, to: Address, amount: nat)
    requires Conserved(l) && TopUp(l, lockProxy, from, to, amount).Some?
    ensures var topped := TopUp(l, lockProxy, from, to, amount).value;
            && Conserved(topped)
            && (from == lockProxy ==> amount <= BalanceOf(topped, lockProxy))
            && topped.totalSupply - BalanceOf(topped, lockProxy) == l.totalSupply - BalanceOf(l, lockProxy)
            && (forall a :: a != lockProxy ==> BalanceOf(topped, a) == BalanceOf(l, a))
            && topped.allowances == l.allowances
  {
    if from == lockProxy && BalanceOf(l, lockProxy) < amount {
      MintConserves(l, lockProxy, amount - BalanceOf(l, lockProxy));
    }
  }

  /** What an operation adds to the circulating supply: what leaves the proxy less what enters it,
      and what is minted or burned elsewhere. */
  function CirculationChange(t: State, sender: Address, op: Op): int {
    match op
    case Mint(to, amount) => if to == t.lockProxy then 0 else amount
    case Burn(value) => if sender == t.lockProxy then 0 else 0 - value
    case BurnFrom(account, value) => if account == t.lockProxy then 0 else 0 - value
    case Transfer(to, value) => PaidBetween(t.lockProxy, sender, to, value)
    case TransferFrom(from, to, value) => PaidBetween(t.lockProxy, from, to, value)
    case _ => 0
  }

  function PaidBetween(lockProxy: Address, from: Address, to: Address, value: nat): int {
    (if from == lockProxy then value else 0) - (if to == lockProxy then value else 0)
  }

  /** In every reachable state the supply is the sum of all balances, and the circulating supply is
      the sum of the balances outside the lock proxy; so reading it never underflows. */
  lemma {:induction false} CirculatingIsHeldOutsideProxy(owner: Address, calls: seq<(Address, Op)>)
    ensures var t := Run(State(Erc20.EMPTY, ZERO_ADDRESS, owner), calls);
            && Conserved(t.ledger)
            && CirculatingSupply(t) == Sum(t.ledger.balances - {t.lockProxy})
  {
    var start := State(Erc20.EMPTY, ZERO_ADDRESS, owner);
    if calls != [] {
      CirculatingIsHeldOutsideProxy(owner, calls[..|calls| - 1]);
      var before := Run(start, calls[..|calls| - 1]);
      var (sender, op) := calls[|calls| - 1];
      if Step(before, sender, op).Some? {
        StepConserves(before, sender, op);
      }
    }
    var t := Run(start, calls);
    if t.lockProxy in t.ledger.balances {
      SumRemove(t.ledger.balances, t.lockProxy);
    } else {
      assert t.ledger.balances - {t.lockProxy} == t.ledger.balances;
    }
  }

  /** A payment by the lock proxy never fails for want of balance: it fails only when what would
      then circulate no longer fits a uint256. It circulates exactly the value paid. */
  lemma ProxyPaymentAlwaysFunded(t: State, to: Address, value: nat)
    requires Conserved(t.ledger)
    requires t.lockProxy != ZERO_ADDRESS && to != ZERO_ADDRESS && to != t.lockProxy
    ensures Step(t, t.lockProxy, Transfer(to, value)).Some? <==> CirculatingSupply(t) + value < UINT256_LIMIT
    ensures Step(t, t.lockProxy, Transfer(to, value)).Some? ==>
              var t' := Step(t, t.lockProxy, Transfer(to, value)).value;
              && CirculatingSupply(t') == CirculatingSupply(t) + value
              && BalanceOf(t'.ledger, to) == BalanceOf(t.ledger, to) + value
              && BalanceOf(t'.ledger, t.lockProxy) ==
                 if value <= BalanceOf(t.ledger, t.lockProxy) then BalanceOf(t.ledger, t.lockProxy) - value else 0
  {
    var topped := TopUp(t.ledger, t.lockProxy, t.lockProxy, to, value);
    if topped.Some? {
      TopUpConserves(t.ledger, t.lockProxy, t.lockProxy, to, value);
      MoveConserves(topped.value, t.lockProxy, to, value);
    }
    BalanceWithinSupply(t.ledger, t.lockProxy);
  }

  /** While no lock proxy is set the token behaves like a plain EIP-20 ledger. */
  lemma UnsetProxyIsPlain(t: State, sender: Address, from: Address, to: Address, value: nat)
    requires Conserved(t.ledger) && t.lockProxy == ZERO_ADDRESS && sender != ZERO_ADDRESS
    ensures Step(t, sender, Transfer(to, value)) ==
            if Move(t.ledger, sender, to, value).None? then None
            else Some(t.(ledger := Move(t.ledger, sender, to, value).value))
    ensures Step(t, sender, TransferFrom(from, to, value)) ==
            if Erc20.TransferFrom(t.ledger, sender, from, to, value).None? then None
            else Some(t.(ledger := Erc20.TransferFrom(t.ledger, sender, from, to, value).value))
  {
  }

  // ----- exactly when an operation succeeds and what it then does

  /** A payer other than the lock proxy needs the balance. The lock proxy needs a recipient other than
      itself, and what then circulates has to fit a uint256. */
  predicate CanPay(t: State, from: Address, to: Address, value: nat) {
    && from != ZERO_ADDRESS && to != ZERO_ADDRESS
    && if from == t.lockProxy then to != from && CirculatingSupply(t) + value < UINT256_LIMIT
       else value <= BalanceOf(t.ledger, from)
  }

  /** What the lock proxy lacks for a payment is minted. */
  function Shortfall(t: State, from: Address, value: nat): nat {
    if from == t.lockProxy && BalanceOf(t.ledger, from) < value then value - BalanceOf(t.ledger, from) else 0
  }

  /** The payer is debited all but the shortfall, the recipient credited, and nothing else moves. */
  ghost predicate Pays(t: State, t': State, from: Address, to: Address, value: nat) {
    && t'.lockProxy == t.lockProxy && t'.owner == t.owner
    && t'.ledger.totalSupply == t.ledger.totalSupply + Shortfall(t, from, value)
    && forall a :: BalanceOf(t'.ledger, a) ==
                   BalanceOf(t.ledger, a) - (if a == from then value - Shortfall(t, from, value) else 0)
                   + (if a == to then value else 0)
  }

  lemma TopUpExactly(t: State, from: Address, to: Address, value: nat)
    requires Conserved(t.ledger) && from != ZERO_ADDRESS && (from == t.lockProxy ==> to != ZERO_ADDRESS)
    ensures var topped := TopUp(t.ledger, t.lockProxy, from, to, value);
            && (topped.Some? <==>
                from == t.lockProxy ==> to != from && t.ledger.totalSupply + Shortfall(t, from, value) < UINT256_LIMIT)
            && (topped.Some? ==>
                  && Conserved(topped.value) && topped.value.allowances == t.ledger.allowances
                  && topped.value.totalSupply == t.ledger.totalSupply + Shortfall(t, from, value)
                  && forall a :: BalanceOf(topped.value, a) ==
                                 BalanceOf(t.ledger, a) + (if a == from then Shortfall(t, from, value) else 0))
  {
    if Shortfall(t, from, value) > 0 {
      MintExactly(t.ledger, from, Shortfall(t, from, value));
      if to != from && t.ledger.totalSupply + Shortfall(t, from, value) < UINT256_LIMIT {
        MintConserves(t.ledger, from, Shortfall(t, from, value));
      }
    }
  }

  /** With any lock proxy and any payer, a transfer goes through exactly when it can be paid. */
  lemma TransferPaysIff(t: State, sender: Address, to: Address, value: nat)
    requires Conserved(t.ledger)
    ensures Step(t, sender, Transfer(to, value)).Some? <==> CanPay(t, sender, to, value)
    ensures Step(t, sender, Transfer(to, value)).Some? ==>
              var t' := Step(t, sender, Transfer(to, value)).value;
              Pays(t, t', sender, to, value) && t'.ledger.allowances == t.ledger.allowances
  {
    BalanceWithinSupply(t.ledger, t.lockProxy);
    if sender != ZERO_ADDRESS && to != ZERO_ADDRESS {
      TopUpExactly(t, sender, to, value);
      var topped := TopUp(t.ledger, t.lockProxy, sender, to, value);
      if topped.Some? {
        MoveExactly(topped.value, sender, to, value);
      }
    }
  }

  /** The same on behalf of the payer, within the sender's allowance, which is used up unless unlimited. */
  lemma TransferFromPaysIff(t: State, sender: Address, from: Address, to: Address, value: nat)
    requires Conserved(t.ledger)
    ensures Step(t, sender, TransferFrom(from, to, value)).Some? <==>
            Allowed(t.ledger, from, sender, value) && CanPay(t, from, to, value)
    ensures Step(t, sender, TransferFrom(from, to, value)).Some? ==>
              var t' := Step(t, sender, TransferFrom(from, to, value)).value;
              Pays(t, t', from, to, value) && UsesAllowance(t.ledger, t'.ledger, from, sender, value)
  {
    BalanceWithinSupply(t.ledger, t.lockProxy);
    if from != ZERO_ADDRESS && to != ZERO_ADDRESS {
      TopUpExactly(t, from, to, value);
      var topped := TopUp(t.ledger, t.lockProxy, from, to, value);
      if topped.Some? {
        TransferFromExactly(topped.value, sender, from, to, value);
      }
    }
  }

  /** Only the owner mints, burns its own and, within its allowance, others' balances, or changes the lock
      proxy; anybody approves for itself. */
  lemma OwnerStepsIff(t: State, sender: Address, account: Address, value: nat)
    requires Conserved(t.ledger)
    ensures Step(t, sender, Mint(account, value)).Some? <==>
            sender == t.owner && account != ZERO_ADDRESS && t.ledger.totalSupply + value < UINT256_LIMIT
    ensures Step(t, sender, Burn(value)).Some? <==>
            sender == t.owner && sender != ZERO_ADDRESS && value <= BalanceOf(t.ledger, sender)
    ensures Step(t, sender, BurnFrom(account, value)).Some? <==>
            && sender == t.owner && Allowed(t.ledger, account, sender, value)
            && account != ZERO_ADDRESS && value <= BalanceOf(t.ledger, account)
    ensures Step(t, sender, SetLockProxy(account)) == if sender == t.owner then Some(t.(lockProxy := account)) else None
    ensures Step(t, sender, Approve(account, value)).Some? <==> sender != ZERO_ADDRESS && account != ZERO_ADDRESS
  {
    MintExactly(t.ledger, account, value);
    BurnExactly(t.ledger, sender, value);
    BurnFromExactly(t.ledger, sender, account, value);
  }

  /** What a mint, a burn and an approval change, and that they change nothing else. */
  lemma OwnerStepsChange(t: State, sender: Address, op: Op)
    requires Conserved(t.ledger) && Step(t, sender, op).Some? && (op.Mint? || op.Burn? || op.BurnFrom? || op.Approve?)
    ensures var t' := Step(t, sender, op).value;
            var l, l' := t.ledger, t'.ledger;
            && t'.lockProxy == t.lockProxy && t'.owner == t.owner
            && match op
               case Mint(to, amount) =>
                 && l'.totalSupply == l.totalSupply + amount && l'.allowances == l.allowances
                 && forall a :: BalanceOf(l', a) == BalanceOf(l, a) + (if a == to then amount else 0)
               case Burn(value) =>
                 && l'.totalSupply == l.totalSupply - value && l'.allowances == l.allowances
                 && forall a :: BalanceOf(l', a) == BalanceOf(l, a) - (if a == sender then value else 0)
               case BurnFrom(account, value) =>
                 && l'.totalSupply == l.totalSupply - value && UsesAllowance(l, l', account, sender, value)
                 && forall a :: BalanceOf(l', a) == BalanceOf(l, a) - (if a == account then value else 0)
               case Approve(spender, value) =>
                 && l'.totalSupply == l.totalSupply && l'.balances == l.balances
                 && forall key :: Get(l'.allowances, key) == if key == (sender, spender) then value else Get(l.allowances, key)
  {
    match op {
      case Mint(to, amount) => MintExactly(t.ledger, to, amount);
      case Burn(value) => BurnExactly(t.ledger, sender, value);
      case BurnFrom(account, value) => BurnFromExactly(t.ledger, sender, account, value);
      case Approve(spender, value) => ApproveExactly(t.ledger, sender, spender, value);
    }
  }
}
