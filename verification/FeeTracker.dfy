/** Deposits that pay for metered calls. A metered body may call back into the tracker, and any
    call frame may revert. */
module FeeTracker {
  import opened Base
  import opened Sums

  /** `paidIn` and `paidOut` count the ether that entered and left the contract. */
  datatype State = State(feeDeposit: map<Address, nat>, feeRefund: map<Address, nat>, paidIn: nat, paidOut: nat)

  /** The readings of one metered call; gas only ever runs down. */
  datatype Metering = Metering(patron: Address, sender: Address, gasPrice: nat, dataLength: nat, gasStart: nat, gasEnd: nat)

  datatype Behaviour = Behaviour(actions: seq<Action>, reverts: bool)

  /** `accepted` says whether the receiver takes the ether. */
  datatype Action =
    | Deposit(sender: Address, value: nat)
    | Withdraw(sender: Address, amount: nat, accepted: bool)
    | Refund(sender: Address, accepted: bool)
    | Meter(metering: Metering, body: Behaviour)
    | CallOther(body: Behaviour)

  // ----- fees

  predicate Plausible(m: Metering) {
    m.gasEnd <= m.gasStart && 4 <= m.dataLength
  }

  function Offset(m: Metering): nat
    requires Plausible(m)
  {
    (44703 + 16 * (m.dataLength - 4)) * m.gasPrice
  }

  /** The most the call can cost: the price of all gas left at its start. */
  function FeeStart(m: Metering): nat
    requires Plausible(m)
  {
    m.gasStart * m.gasPrice + Offset(m)
  }

  function Spent(m: Metering): int
    requires Plausible(m)
  {
    FeeStart(m) - m.gasEnd * m.gasPrice
  }

  lemma SpentBounds(m: Metering)
    requires Plausible(m)
    ensures 0 <= Offset(m) <= Spent(m) <= FeeStart(m)
  {
    assert m.gasEnd * m.gasPrice <= m.gasStart * m.gasPrice;
  }

  // ----- effects; None is a revert

  function DepositEffect(s: State, sender: Address, value: nat): Option<State> {
    if s.paidIn - s.paidOut + value >= UINT256_LIMIT || Get(s.feeDeposit, sender) + value >= UINT256_LIMIT then None
    else Some(s.(feeDeposit := s.feeDeposit[sender := Get(s.feeDeposit, sender) + value], paidIn := s.paidIn + value))
  }

  /** Ether leaves only if the receiver takes it and the contract has it. */
  function PayEffect(s: State, amount: nat, accepted: bool): Option<State> {
    if !accepted || amount > s.paidIn - s.paidOut then None else Some(s.(paidOut := s.paidOut + amount))
  }

  function WithdrawEffect(s: State, sender: Address, amount: nat, accepted: bool): Option<State> {
    if amount > Get(s.feeDeposit, sender) then None
    else PayEffect(s.(feeDeposit := s.feeDeposit[sender := Get(s.feeDeposit, sender) - amount]), amount, accepted)
  }

  function RefundEffect(s: State, sender: Address, accepted: bool): Option<State> {
    PayEffect(s.(feeRefund := s.feeRefund[sender := 0]), Get(s.feeRefund, sender), accepted)
  }

  function ChargeEffect(s: State, m: Metering): Option<State>
    requires Plausible(m)
  {
    SpentBounds(m);
    var spent := Spent(m);
    if spent > Get(s.feeDeposit, m.patron) || Get(s.feeRefund, m.sender) + spent >= UINT256_LIMIT then None
    else Some(s.(feeDeposit := s.feeDeposit[m.patron := Get(s.feeDeposit, m.patron) - spent],
                 feeRefund := s.feeRefund[m.sender := Get(s.feeRefund, m.sender) + spent]))
  }

  function MeterEffect(s: State, m: Metering, body: Behaviour): Option<State>
    decreases body, 2
  {
    if !Plausible(m) || FeeStart(m) >= UINT256_LIMIT || Get(s.feeDeposit, m.patron) < Offset(m) then None
    else
      var ran := if Get(s.feeDeposit, m.patron) >= FeeStart(m) then ExecuteEffect(s, body) else Some(s);
      if ran.None? then None else ChargeEffect(ran.value, m)
  }

  function ExecuteEffect(s: State, body: Behaviour): Option<State>
    decreases body, 1
  {
    var after := ActionsEffect(s, body.actions);
    if body.reverts then None else Some(after)
  }

  /** Callers may catch: a call that reverts just leaves the state as it was. */
  function ActionsEffect(s: State, actions: seq<Action>): State
    decreases actions, 0
  {
    if actions == [] then s
    else
      var before := ActionsEffect(s, actions[..|actions| - 1]);
      var after := ActionEffect(before, actions[|actions| - 1]);
      if after.Some? then after.value else before
  }

  function ActionEffect(s: State, action: Action): Option<State>
    decreases action, 3
  {
    match action
    case Deposit(sender, value) => DepositEffect(s, sender, value)
    case Withdraw(sender, amount, accepted) => WithdrawEffect(s, sender, amount, accepted)
    case Refund(sender, accepted) => RefundEffect(s, sender, accepted)
    case Meter(metering, body) => MeterEffect(s, metering, body)
    case CallOther(body) => ExecuteEffect(s, body)
  }

  // ----- the contract

  class Tracker {
    var feeDeposit: map<Address, nat>
    var feeRefund: map<Address, nat>
    var paidIn: nat
    var paidOut: nat

    ghost function View(): State
      reads this
    {
      State(feeDeposit, feeRefund, paidIn, paidOut)
    }

    constructor ()
      ensures View() == Deployed()
      ensures feeDeposit == map[] && feeRefund == map[] && paidIn == 0 && paidOut == 0
    {
      feeDeposit, feeRefund, paidIn, paidOut := map[], map[], 0, 0;
    }

    method MeterFee(m: Metering, body: Behaviour) returns (ok: bool)
      modifies this
      ensures Outcome(old(View()), MeterEffect(old(View()), m, body), View(), ok)
      decreases body, 2
    {
      if !Plausible(m) || FeeStart(m) >= UINT256_LIMIT {
        return false;
      }
      if Get(feeDeposit, m.patron) < Offset(m) {
        return false;
      }
      var deposit', refund', in', out' := feeDeposit, feeRefund, paidIn, paidOut;
      ok := true;
      if Get(feeDeposit, m.patron) >= FeeStart(m) {
        ok := Execute(body);
      }
      if ok {
        SpentBounds(m);
        var spent := Spent(m);
        ok := spent <= Get(feeDeposit, m.patron) && Get(feeRefund, m.sender) + spent < UINT256_LIMIT;
        if ok {
          feeDeposit := feeDeposit[m.patron := Get(feeDeposit, m.patron) - spent];
          feeRefund := feeRefund[m.sender := Get(feeRefund, m.sender) + spent];
        } else {
          feeDeposit, feeRefund, paidIn, paidOut := deposit', refund', in', out';
        }
      }
    }

    method DepositFee(sender: Address, value: nat) returns (ok: bool)
      modifies this
      ensures Outcome(old(View()), DepositEffect(old(View()), sender, value), View(), ok)
    {
      ok := paidIn - paidOut + value < UINT256_LIMIT && Get(feeDeposit, sender) + value < UINT256_LIMIT;
      if ok {
        feeDeposit := feeDeposit[sender := Get(feeDeposit, sender) + value];
        paidIn := paidIn + value;
      }
    }

    method WithdrawFee(sender: Address, amount: nat, accepted: bool) returns (ok: bool)
      modifies this
      ensures Outcome(old(View()), WithdrawEffect(old(View()), sender, amount, accepted), View(), ok)
    {
      var saved := feeDeposit;
      if amount > Get(feeDeposit, sender) {
        return false;
      }
      feeDeposit := feeDeposit[sender := Get(feeDeposit, sender) - amount];
      ok := Pay(amount, accepted);
      if !ok {
        feeDeposit := saved;
      }
    }

    method RefundFee(sender: Address, accepted: bool) returns (ok: bool)
      modifies this
      ensures Outcome(old(View()), RefundEffect(old(View()), sender, accepted), View(), ok)
    {
      var saved := feeRefund;
      var amount := Get(feeRefund, sender);
      feeRefund := feeRefund[sender := 0];
      ok := Pay(amount, accepted);
      if !ok {
        feeRefund := saved;
      }
    }

    method Pay(amount: nat, accepted: bool) returns (ok: bool)
      modifies this`paidOut
      ensures Outcome(old(View()), PayEffect(old(View()), amount, accepted), View(), ok)
    {
      ok := accepted && amount <= paidIn - paidOut;
      if ok {
        paidOut := paidOut + amount;
      }
    }

    method Execute(body: Behaviour) returns (ok: bool)
      modifies this
      ensures Outcome(old(View()), ExecuteEffect(old(View()), body), View(), ok)
      decreases body, 1
    {
      var deposit', refund', in', out' := feeDeposit, feeRefund, paidIn, paidOut;
      ghost var before := View();
      for i := 0 to |body.actions|
        invariant View() == ActionsEffect(before, body.actions[..i])
      {
        assert body.actions[..i + 1][..i] == body.actions[..i];
        var _ := Perform(body.actions[i]);
      }
      assert body.actions[..|body.actions|] == body.actions;
      ok := !body.reverts;
      if body.reverts {
        feeDeposit, feeRefund, paidIn, paidOut := deposit', refund', in', out';
      }
    }

    method Perform(action: Action) returns (ok: bool)
      modifies this
      ensures Outcome(old(View()), ActionEffect(old(View()), action), View(), ok)
      decreases action, 3
    {
      match action {
        case Deposit(sender, value) => ok := DepositFee(sender, value);
        case Withdraw(sender, amount, accepted) => ok := WithdrawFee(sender, amount, accepted);
        case Refund(sender, accepted) => ok := RefundFee(sender, accepted);
        case Meter(metering, body) => ok := MeterFee(metering, body);
        case CallOther(body) => ok := Execute(body);
      }
    }
  }

  ghost predicate Outcome(before: State, effect: Option<State>, after: State, ok: bool) {
    (ok <==> effect.Some?) && after == if ok then effect.value else before
  }

  function Deployed(): State {
    State(map[], map[], 0, 0)
  }

  // ----- conservation

  /** Deposits and refunds together are exactly the ether held. */
  ghost predicate Covered(s: State) {
    && Sum(s.feeDeposit) + Sum(s.feeRefund) == s.paidIn - s.paidOut
    && s.paidIn - s.paidOut < UINT256_LIMIT
  }

  lemma DepositCovered(s: State, sender: Address, value: nat)
    requires Covered(s) && DepositEffect(s, sender, value).Some?
    ensures Covered(DepositEffect(s, sender, value).value)
  {
    SumUpdate(s.feeDeposit, sender, Get(s.feeDeposit, sender) + value);
  }

  /** A withdrawal fails only for want of deposit or because the receiver refuses, never because the
      contract lacks the ether. */
  lemma WithdrawCovered(s: State, sender: Address, amount: nat, accepted: bool)
    requires Covered(s)
    ensures WithdrawEffect(s, sender, amount, accepted).Some? <==> accepted && amount <= Get(s.feeDeposit, sender)
    ensures WithdrawEffect(s, sender, amount, accepted).Some? ==> Covered(WithdrawEffect(s, sender, amount, accepted).value)
  {
    SumUpdate(s.feeDeposit, sender, 0);
    if amount <= Get(s.feeDeposit, sender) {
      SumUpdate(s.feeDeposit, sender, Get(s.feeDeposit, sender) - amount);
    }
  }

  /** A refund always has its ether. */
  lemma RefundCovered(s: State, sender: Address, accepted: bool)
    requires Covered(s)
    ensures RefundEffect(s, sender, accepted).Some? <==> accepted
    ensures accepted ==> Covered(RefundEffect(s, sender, accepted).value)
  {
    SumUpdate(s.feeRefund, sender, 0);
  }

  /** A charge only moves a fee from the patron's deposit to the sender's refund; it fails only when
      the deposit is short. */
  lemma ChargeCovered(s: State, m: Metering)
    requires Covered(s) && Plausible(m)
    ensures ChargeEffect(s, m).Some? <==> Spent(m) <= Get(s.feeDeposit, m.patron)
    ensures ChargeEffect(s, m).Some? ==> Covered(ChargeEffect(s, m).value)
  {
    SpentBounds(m);
    SumUpdate(s.feeRefund, m.sender, Get(s.feeRefund, m.sender) + Spent(m));
    SumUpdate(s.feeDeposit, m.patron, 0);
    if Spent(m) <= Get(s.feeDeposit, m.patron) {
      SumUpdate(s.feeDeposit, m.patron, Get(s.feeDeposit, m.patron) - Spent(m));
    }
  }

  lemma ActionCovered(s: State, action: Action)
    requires Covered(s) && ActionEffect(s, action).Some?
    ensures Covered(ActionEffect(s, action).value)
    decreases action, 1
  {
    match action {
      case Deposit(sender, value) => DepositCovered(s, sender, value);
      case Withdraw(sender, amount, accepted) => WithdrawCovered(s, sender, amount, accepted);
      case Refund(sender, accepted) => RefundCovered(s, sender, accepted);
      case CallOther(body) => ActionsCovered(s, body.actions);
      case Meter(m, body) =>
        ActionsCovered(s, body.actions);
        var ran := if Get(s.feeDeposit, m.patron) >= FeeStart(m) then ExecuteEffect(s, body).value else s;
        ChargeCovered(ran, m);
    }
  }

  /** However the calls nest, re-enter and revert, the ether held is what depositors and refundees
      are owed. */
  lemma ActionsCovered(s: State, actions: seq<Action>)
    requires Covered(s)
    ensures Covered(ActionsEffect(s, actions))
    decreases actions, 0
  {
    if actions != [] {
      ActionsCovered(s, actions[..|actions| - 1]);
      var before := ActionsEffect(s, actions[..|actions| - 1]);
      if ActionEffect(before, actions[|actions| - 1]).Some? {
        ActionCovered(before, actions[|actions| - 1]);
      }
    }
  }

  /** The same from deployment on. */
  lemma FeesConserved(transactions: seq<Action>)
    ensures Covered(ActionsEffect(Deployed(), transactions))
  {
    ActionsCovered(Deployed(), transactions);
  }

  /** When the body runs, does not revert and leaves the patron at least the deposit it had, the final
      charge cannot underflow: the metered call succeeds. */
  lemma UntouchedDepositPays(s: State, m: Metering, body: Behaviour)
    requires Covered(s) && Plausible(m) && FeeStart(m) < UINT256_LIMIT
    requires FeeStart(m) <= Get(s.feeDeposit, m.patron)
    requires !body.reverts
    requires Get(s.feeDeposit, m.patron) <= Get(ActionsEffect(s, body.actions).feeDeposit, m.patron)
    ensures MeterEffect(s, m, body).Some?
    ensures Get(MeterEffect(s, m, body).value.feeDeposit, m.patron) >= Get(s.feeDeposit, m.patron) - FeeStart(m)
  {
    SpentBounds(m);
    ActionsCovered(s, body.actions);
    ChargeCovered(ActionsEffect(s, body.actions), m);
    assert ExecuteEffect(s, body) == Some(ActionsEffect(s, body.actions));
  }

  /** A deposit that covers the offset but not the whole gas skips the body. The fee is then taken
      exactly when the deposit covers what was spent; otherwise the call reverts and nobody is paid. */
  lemma SkippedBodyIsChargedIff(s: State, m: Metering, body: Behaviour)
    requires Covered(s) && Plausible(m) && FeeStart(m) < UINT256_LIMIT
    requires Offset(m) <= Get(s.feeDeposit, m.patron) < FeeStart(m)
    ensures MeterEffect(s, m, body).Some? <==> Spent(m) <= Get(s.feeDeposit, m.patron)
    ensures MeterEffect(s, m, body).Some? ==> Charges(s, MeterEffect(s, m, body).value, m)
  {
    ChargeCovered(s, m);
  }

  /** A case where it is not: 5000 gas spent at price 1, with a deposit 1000 short of offset and gas. */
  lemma SkippedBodyMayGoUnpaid()
    ensures var m := Metering(1, 2, 1, 4, 100000, 95000);
            var s := State(map[1 := 48703], map[], 48703, 0);
            && Covered(s) && Offset(m) == 44703 && Spent(m) == 49703
            && Offset(m) <= 48703 < FeeStart(m)
            && MeterEffect(s, m, Behaviour([], false)).None?
  {
    var none: map<Address, nat> := map[];
    SumUpdate(none, 1, 48703);
    assert none[1 := 48703] == map[1 := 48703];
  }

  // ----- exactly what each operation does

  /** A deposit is credited to its sender in full, as long as all ether held fits a uint256. */
  lemma DepositCreditsSender(s: State, sender: Address, value: nat)
    requires Covered(s)
    ensures DepositEffect(s, sender, value).Some? <==> s.paidIn - s.paidOut + value < UINT256_LIMIT
    ensures DepositEffect(s, sender, value).Some? ==>
              var s' := DepositEffect(s, sender, value).value;
              && s'.paidIn == s.paidIn + value && s'.paidOut == s.paidOut && s'.feeRefund == s.feeRefund
              && forall a :: Get(s'.feeDeposit, a) == Get(s.feeDeposit, a) + (if a == sender then value else 0)
  {
    SumUpdate(s.feeDeposit, sender, 0);
  }

  /** A withdrawal pays its sender out of its own deposit, and touches nobody else's. */
  lemma WithdrawalPaysSender(s: State, sender: Address, amount: nat, accepted: bool)
    requires Covered(s) && WithdrawEffect(s, sender, amount, accepted).Some?
    ensures var s' := WithdrawEffect(s, sender, amount, accepted).value;
            && s'.paidOut == s.paidOut + amount && s'.paidIn == s.paidIn && s'.feeRefund == s.feeRefund
            && forall a :: Get(s'.feeDeposit, a) == Get(s.feeDeposit, a) - (if a == sender then amount else 0)
  {
  }

  /** A refund that is taken pays its sender exactly what it is owed and clears the claim, and touches no
      other claim and no deposit. */
  lemma RefundPaysSender(s: State, sender: Address, accepted: bool)
    requires Covered(s) && RefundEffect(s, sender, accepted).Some?
    ensures var s' := RefundEffect(s, sender, accepted).value;
            && s'.paidOut == s.paidOut + Get(s.feeRefund, sender) && s'.paidIn == s.paidIn && s'.feeDeposit == s.feeDeposit
            && forall a :: Get(s'.feeRefund, a) == if a == sender then 0 else Get(s.feeRefund, a)
  {
  }

  /** A charge moves what was spent from the patron's deposit to the sender's refund; no ether moves. */
  ghost predicate Charges(s: State, s': State, m: Metering)
    requires Plausible(m)
  {
    && s'.paidIn == s.paidIn && s'.paidOut == s.paidOut
    && (forall a :: Get(s'.feeDeposit, a) == Get(s.feeDeposit, a) - (if a == m.patron then Spent(m) else 0))
    && (forall a :: Get(s'.feeRefund, a) == Get(s.feeRefund, a) + (if a == m.sender then Spent(m) else 0))
  }

  /** The deposit covers the offset, and the cost fits a uint256. */
  predicate Admits(s: State, m: Metering) {
    Plausible(m) && FeeStart(m) < UINT256_LIMIT && Offset(m) <= Get(s.feeDeposit, m.patron)
  }

  /** With a deposit that covers all gas the body runs. The call goes through exactly when the body does not
      revert and leaves the patron what was spent, and then keeps all that the body did. */
  lemma FundedBodyRuns(s: State, m: Metering, body: Behaviour)
    requires Covered(s) && Admits(s, m) && FeeStart(m) <= Get(s.feeDeposit, m.patron)
    ensures var after := ActionsEffect(s, body.actions);
            && (MeterEffect(s, m, body).Some? <==> !body.reverts && Spent(m) <= Get(after.feeDeposit, m.patron))
            && (MeterEffect(s, m, body).Some? ==> Charges(after, MeterEffect(s, m, body).value, m))
  {
    SpentBounds(m);
    ActionsCovered(s, body.actions);
    ChargeCovered(ActionsEffect(s, body.actions), m);
  }

  /** Without the offset, or with a cost beyond a uint256, the call is rejected. */
  lemma OthersAreRejected(s: State, m: Metering, body: Behaviour)
    requires !Admits(s, m)
    ensures MeterEffect(s, m, body).None?
  {
  }

  /** The offset is the price of 44703 gas and of 16 for each byte of call data after the selector; on top
      of it a call costs at most its gas at the start, and is charged for what is gone at the end. */
  lemma FeesAreGasTimesPrice(m: Metering)
    requires Plausible(m)
    ensures m.dataLength == 4 ==> Offset(m) == 44703 * m.gasPrice
    ensures Offset(m.(dataLength := m.dataLength + 1)) == Offset(m) + 16 * m.gasPrice
    ensures FeeStart(m) - Offset(m) == m.gasStart * m.gasPrice
    ensures Spent(m) - Offset(m) == (m.gasStart - m.gasEnd) * m.gasPrice
  {
    var perByte := m.(dataLength := m.dataLength + 1);
    assert (44703 + 16 * (perByte.dataLength - 4)) * m.gasPrice == (44703 + 16 * (m.dataLength - 4)) * m.gasPrice + 16 * m.gasPrice;
  }

  /** What the next call makes of the state: one that reverts, or is not taken, is as if it had not been made. */
  function Next(s: State, action: Action): State {
    match action
    case CallOther(body) => if body.reverts then s else ActionsEffect(s, body.actions)
    case Deposit(sender, value) => Else(DepositEffect(s, sender, value), s)
    case Withdraw(sender, amount, accepted) => Else(WithdrawEffect(s, sender, amount, accepted), s)
    case Refund(sender, accepted) => Else(RefundEffect(s, sender, accepted), s)
    case Meter(m, body) => Else(MeterEffect(s, m, body), s)
  }

  /** Calls take effect one after the other. */
  lemma CallsTakeEffectInTurn(s: State, actions: seq<Action>, action: Action)
    ensures ActionsEffect(s, []) == s
    ensures ActionsEffect(s, actions + [action]) == Next(ActionsEffect(s, actions), action)
  {
    assert (actions + [action])[..|actions|] == actions;
    var before := ActionsEffect(s, actions);
    assert ActionsEffect(s, actions + [action]) == Else(ActionEffect(before, action), before);
    if action.CallOther? {
      assert ActionEffect(before, action) == ExecuteEffect(before, action.body);
    }
  }

  function Else(after: Option<State>, before: State): State {
    if after.Some? then after.value else before
  }
}
