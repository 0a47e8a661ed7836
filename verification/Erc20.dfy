/** Sums over finite maps. */
module Sums {
  ghost function Sum<K>(m: map<K, nat>): nat {
    if m == map[] then 0
    else
      var k :| k in m;
      m[k] + Sum(m - {k})
  }

  function Get<K>(m: map<K, nat>, k: K): nat {
    if k in m then m[k] else 0
  }

  lemma {:induction false} SumRemove<K>(m: map<K, nat>, k: K)
    requires k in m
    ensures Sum(m) == m[k] + Sum(m - {k})
    decreases |m|
  {
    var first :| first in m && Sum(m) == m[first] + Sum(m - {first});
    if first != k {
      SumRemove(m - {first}, k);
      SumRemove(m - {k}, first);
      assert m - {first} - {k} == m - {k} - {first};
    }
  }

  lemma SumUpdate<K>(m: map<K, nat>, k: K, v: nat)
    ensures Sum(m[k := v]) == Sum(m) - Get(m, k) + v
    ensures Get(m, k) <= Sum(m)
  {
    var m' := m[k := v];
    SumRemove(m', k);
    if k in m {
      SumRemove(m, k);
      assert m' - {k} == m - {k};
    } else {
      assert m' - {k} == m;
    }
  }
}

/** A standard EIP-20 ledger; None is a revert. */
module Erc20 {
  import opened Base
  import opened Sums

  datatype Ledger = Ledger(balances: map<Address, nat>, allowances: map<(Address, Address), nat>, totalSupply: nat)

  const EMPTY: Ledger := Ledger(map[], map[], 0)

  function BalanceOf(l: Ledger, account: Address): nat {
    Get(l.balances, account)
  }

  function Mint(l: Ledger, to: Address, value: nat): Option<Ledger> {
    if to == ZERO_ADDRESS || l.totalSupply + value >= UINT256_LIMIT then None
    else Some(l.(totalSupply := l.totalSupply + value, balances := l.balances[to := BalanceOf(l, to) + value]))
  }

  function Burn(l: Ledger, from: Address, value: nat): Option<Ledger> {
    if from == ZERO_ADDRESS || BalanceOf(l, from) < value || l.totalSupply < value then None
    else Some(l.(totalSupply := l.totalSupply - value, balances := l.balances[from := BalanceOf(l, from) - value]))
  }

  function Move(l: Ledger, from: Address, to: Address, value: nat): Option<Ledger> {
    if from == ZERO_ADDRESS || to == ZERO_ADDRESS || BalanceOf(l, from) < value then None
    else
      var debited := l.balances[from := BalanceOf(l, from) - value];
      Some(l.(balances := debited[to := Get(debited, to) + value]))
  }

  function Approve(l: Ledger, owner: Address, spender: Address, value: nat): Option<Ledger> {
    if owner == ZERO_ADDRESS || spender == ZERO_ADDRESS then None
    else Some(l.(allowances := l.allowances[(owner, spender) := value]))
  }

  /** An allowance of the largest uint256 is unlimited. */
  function SpendAllowance(l: Ledger, owner: Address, spender: Address, value: nat): Option<Ledger> {
    var allowed := Get(l.allowances, (owner, spender));
    if allowed >= UINT256_LIMIT - 1 then Some(l)
    else if allowed < value then None
    else Approve(l, owner, spender, allowed - value)
  }

  function TransferFrom(l: Ledger, spender: Address, from: Address, to: Address, value: nat): Option<Ledger> {
    var spent := SpendAllowance(l, from, spender, value);
    if spent.None? then None else Move(spent.value, from, to, value)
  }

  function BurnFrom(l: Ledger, spender: Address, account: Address, value: nat): Option<Ledger> {
    var spent := SpendAllowance(l, account, spender, value);
    if spent.None? then None else Burn(spent.value, account, value)
  }

  /** The supply is what the accounts hold, fits a uint256, and the zero address holds nothing. */
  ghost predicate Conserved(l: Ledger) {
    Sum(l.balances) == l.totalSupply < UINT256_LIMIT && BalanceOf(l, ZERO_ADDRESS) == 0
  }

  lemma MintConserves(l: Ledger, to: Address, value: nat)
    requires Conserved(l) && Mint(l, to, value).Some?
    ensures Conserved(Mint(l, to, value).value)
    ensures forall a :: BalanceOf(Mint(l, to, value).value, a) == BalanceOf(l, a) + (if a == to then value else 0)
  {
    SumUpdate(l.balances, to, BalanceOf(l, to) + value);
  }

  lemma BurnConserves(l: Ledger, from: Address, value: nat)
    requires Conserved(l)
    ensures Burn(l, from, value).Some? <==> from != ZERO_ADDRESS && value <= BalanceOf(l, from)
    ensures Burn(l, from, value).Some? ==>
              && Conserved(Burn(l, from, value).value)
              && forall a :: BalanceOf(Burn(l, from, value).value, a) == BalanceOf(l, a) - (if a == from then value else 0)
  {
    SumUpdate(l.balances, from, 0);
    if value <= BalanceOf(l, from) {
      SumUpdate(l.balances, from, BalanceOf(l, from) - value);
    }
  }

  /** A transfer conserves the ledger and moves exactly the value, also from an account to itself. */
  lemma MoveConserves(l: Ledger, from: Address, to: Address, value: nat)
    requires Conserved(l) && Move(l, from, to, value).Some?
    ensures Conserved(Move(l, from, to, value).value)
    ensures forall a :: BalanceOf(Move(l, from, to, value).value, a) ==
                        BalanceOf(l, a) - (if a == from then value else 0) + (if a == to then value else 0)
  {
    var debited := l.balances[from := BalanceOf(l, from) - value];
    SumUpdate(l.balances, from, BalanceOf(l, from) - value);
    SumUpdate(debited, to, Get(debited, to) + value);
  }

  lemma BalanceWithinSupply(l: Ledger, account: Address)
    requires Conserved(l)
    ensures BalanceOf(l, account) <= l.totalSupply
  {
    SumUpdate(l.balances, account, 0);
  }

  // ----- exactly when an operation succeeds and what it then does

  lemma MintExactly(l: Ledger, to: Address, value: nat)
    requires Conserved(l)
    ensures Mint(l, to, value).Some? <==> to != ZERO_ADDRESS && l.totalSupply + value < UINT256_LIMIT
    ensures Mint(l, to, value).Some? ==>
              var l' := Mint(l, to, value).value;
              && l'.totalSupply == l.totalSupply + value && l'.allowances == l.allowances
              && forall a :: BalanceOf(l', a) == BalanceOf(l, a) + (if a == to then value else 0)
  {
  }

  lemma BurnExactly(l: Ledger, from: Address, value: nat)
    requires Conserved(l)
    ensures Burn(l, from, value).Some? <==> from != ZERO_ADDRESS && value <= BalanceOf(l, from)
    ensures Burn(l, from, value).Some? ==>
              var l' := Burn(l, from, value).value;
              && l'.totalSupply == l.totalSupply - value && l'.allowances == l.allowances
              && forall a :: BalanceOf(l', a) == BalanceOf(l, a) - (if a == from then value else 0)
  {
    BurnConserves(l, from, value);
  }

  lemma MoveExactly(l: Ledger, from: Address, to: Address, value: nat)
    requires Conserved(l)
    ensures Move(l, from, to, value).Some? <==> from != ZERO_ADDRESS && to != ZERO_ADDRESS && value <= BalanceOf(l, from)
    ensures Move(l, from, to, value).Some? ==>
              var l' := Move(l, from, to, value).value;
              && l'.totalSupply == l.totalSupply && l'.allowances == l.allowances
              && forall a :: BalanceOf(l', a) ==
                             BalanceOf(l, a) - (if a == from then value else 0) + (if a == to then value else 0)
  {
    if Move(l, from, to, value).Some? {
      MoveConserves(l, from, to, value);
    }
  }

  lemma ApproveExactly(l: Ledger, owner: Address, spender: Address, value: nat)
    ensures Approve(l, owner, spender, value).Some? <==> owner != ZERO_ADDRESS && spender != ZERO_ADDRESS
    ensures Approve(l, owner, spender, value).Some? ==>
              var l' := Approve(l, owner, spender, value).value;
              && l'.totalSupply == l.totalSupply && l'.balances == l.balances
              && forall key :: Get(l'.allowances, key) == if key == (owner, spender) then value else Get(l.allowances, key)
  {
  }

  predicate Unlimited(l: Ledger, owner: Address, spender: Address) {
    Get(l.allowances, (owner, spender)) >= UINT256_LIMIT - 1
  }

  /** The spender may move that much for the owner. */
  predicate Allowed(l: Ledger, owner: Address, spender: Address, value: nat) {
    Unlimited(l, owner, spender) ||
    (owner != ZERO_ADDRESS && spender != ZERO_ADDRESS && value <= Get(l.allowances, (owner, spender)))
  }

  /** An allowance that is not unlimited is used up by the value, and no other changes. */
  ghost predicate UsesAllowance(l: Ledger, l': Ledger, owner: Address, spender: Address, value: nat) {
    forall key :: Get(l'.allowances, key) ==
                  Get(l.allowances, key) - (if key == (owner, spender) && !Unlimited(l, owner, spender) then value else 0)
  }

  lemma SpendExactly(l: Ledger, owner: Address, spender: Address, value: nat)
    ensures SpendAllowance(l, owner, spender, value).Some? <==> Allowed(l, owner, spender, value)
    ensures SpendAllowance(l, owner, spender, value).Some? ==>
              var l' := SpendAllowance(l, owner, spender, value).value;
              l'.totalSupply == l.totalSupply && l'.balances == l.balances && UsesAllowance(l, l', owner, spender, value)
  {
  }

  /** Who may move what on whose behalf, what moves, and what is left of the allowance. */
  lemma TransferFromExactly(l: Ledger, spender: Address, from: Address, to: Address, value: nat)
    requires Conserved(l)
    ensures TransferFrom(l, spender, from, to, value).Some? <==>
            && Allowed(l, from, spender, value)
            && from != ZERO_ADDRESS && to != ZERO_ADDRESS && value <= BalanceOf(l, from)
    ensures TransferFrom(l, spender, from, to, value).Some? ==>
              var l' := TransferFrom(l, spender, from, to, value).value;
              && l'.totalSupply == l.totalSupply && UsesAllowance(l, l', from, spender, value)
              && forall a :: BalanceOf(l', a) ==
                             BalanceOf(l, a) - (if a == from then value else 0) + (if a == to then value else 0)
  {
    SpendExactly(l, from, spender, value);
    if Allowed(l, from, spender, value) {
      MoveExactly(SpendAllowance(l, from, spender, value).value, from, to, value);
    }
  }

  lemma BurnFromExactly(l: Ledger, spender: Address, account: Address, value: nat)
    requires Conserved(l)
    ensures BurnFrom(l, spender, account, value).Some? <==>
            Allowed(l, account, spender, value) && account != ZERO_ADDRESS && value <= BalanceOf(l, account)
    ensures BurnFrom(l, spender, account, value).Some? ==>
              var l' := BurnFrom(l, spender, account, value).value;
              && l'.totalSupply == l.totalSupply - value && UsesAllowance(l, l', account, spender, value)
              && forall a :: BalanceOf(l', a) == BalanceOf(l, a) - (if a == account then value else 0)
  {
    SpendExactly(l, account, spender, value);
    if Allowed(l, account, spender, value) {
      BurnExactly(SpendAllowance(l, account, spender, value).value, account, value);
    }
  }
}
