/** The dispatcher with fees: a dispatch is metered against its target's deposit, and the meter runs the
    dispatch only when that deposit covers all the gas. */
module MeteredDispatch {
  import opened Base
  import opened Messages
  import opened Sums
  import SignatureValidator
  import Fees = FeeTracker
  import Gateways = ChainGateway

  datatype State = State(fees: Fees.State, gateway: Gateways.State)

  datatype Behaviour = Behaviour(actions: seq<Action>, reverts: bool)

  /** The patron of a metered dispatch is its target, and the metering's sender the caller. */
  datatype Action =
    | Dispatch(request: Gateways.Request, metering: Fees.Metering, body: Behaviour)
    | DepositFee(sender: Address, value: nat)
    | WithdrawFee(sender: Address, amount: nat, accepted: bool)
    | RefundFee(sender: Address, accepted: bool)
    | SetValidators(validators: set<Address>)
    | CallOther(body: Behaviour)

  // ----- effects; None is a revert

  function Deposited(s: State, request: Gateways.Request): nat {
    Get(s.fees.feeDeposit, request.target)
  }

  function Billed(request: Gateways.Request, metering: Fees.Metering): Fees.Metering {
    metering.(patron := request.target)
  }

  /** The meter lets the call in: its cost fits a uint256 and the deposit covers the offset. */
  predicate Metered(s: State, request: Gateways.Request, metering: Fees.Metering) {
    var m := Billed(request, metering);
    Fees.Plausible(m) && Fees.FeeStart(m) < UINT256_LIMIT && Fees.Offset(m) <= Deposited(s, request)
  }

  ghost function DispatchEffect(chain: Gateways.Chain, s: State, request: Gateways.Request, metering: Fees.Metering,
                                body: Behaviour): Option<State>
    decreases body, 3
  {
    if !Metered(s, request, metering) then None
    else
      var m := Billed(request, metering);
      var ran := if Deposited(s, request) >= Fees.FeeStart(m) then GuardedEffect(chain, s, request, m.sender, body) else Some(s);
      if ran.None? then None
      else
        var charged := Fees.ChargeEffect(ran.value.fees, m);
        if charged.None? then None else Some(ran.value.(fees := charged.value))
  }

  /** What the guards ask for: a validator as caller, a contract as target, a fresh key and a quorum. */
  ghost predicate Admitted(chain: Gateways.Chain, s: State, request: Gateways.Request, sender: Address) {
    && sender in s.gateway.validators && request.isContract
    && (request.sourceChainId, request.nonce) !in s.gateway.dispatched
    && SignatureValidator.Accepts(chain.recover, s.gateway.validators, Digest(Gateways.MessageOf(chain, request)), request.signatures)
  }

  function Marked(s: State, request: Gateways.Request): State {
    s.(gateway := s.gateway.(dispatched := s.gateway.dispatched + {(request.sourceChainId, request.nonce)}))
  }

  function Logged(s: State, message: RelayEvent, success: bool): State {
    s.(gateway := s.gateway.(log := s.gateway.log + [Gateways.DispatchedEvent(message, success)]))
  }

  ghost function GuardedEffect(chain: Gateways.Chain, s: State, request: Gateways.Request, sender: Address, body: Behaviour): Option<State>
    decreases body, 2
  {
    if !Admitted(chain, s, request, sender) then None
    else
      var (after, success) := ExecuteEffect(chain, Marked(s, request), body);
      Some(Logged(after, Gateways.MessageOf(chain, request), success))
  }

  ghost function ExecuteEffect(chain: Gateways.Chain, s: State, body: Behaviour): (State, bool)
    decreases body, 1
  {
    if body.reverts then (s, false) else (ActionsEffect(chain, s, body.actions), true)
  }

  /** Callers may catch: a call that reverts leaves the state as it was. */
  ghost function ActionsEffect(chain: Gateways.Chain, s: State, actions: seq<Action>): State
    decreases actions, 0
  {
    if actions == [] then s
    else
      var before := ActionsEffect(chain, s, actions[..|actions| - 1]);
      var after := ActionEffect(chain, before, actions[|actions| - 1]);
      if after.Some? then after.value else before
  }

  ghost function ActionEffect(chain: Gateways.Chain, s: State, action: Action): Option<State>
    decreases action, 4
  {
    match action
    case Dispatch(request, metering, body) => DispatchEffect(chain, s, request, metering, body)
    case DepositFee(sender, value) => WithFees(s, Fees.DepositEffect(s.fees, sender, value))
    case WithdrawFee(sender, amount, accepted) => WithFees(s, Fees.WithdrawEffect(s.fees, sender, amount, accepted))
    case RefundFee(sender, accepted) => WithFees(s, Fees.RefundEffect(s.fees, sender, accepted))
    case SetValidators(validators) => Some(s.(gateway := s.gateway.(validators := validators)))
    case CallOther(body) => if body.reverts then None else Some(ActionsEffect(chain, s, body.actions))
  }

  function WithFees(s: State, fees: Option<Fees.State>): Option<State> {
    if fees.None? then None else Some(s.(fees := fees.value))
  }

  // ----- the contract

  class Dispatcher {
    const chain: Gateways.Chain
    var fees: Fees.State
    var gateway: Gateways.State

    ghost function View(): State
      reads this
    {
      State(fees, gateway)
    }

    constructor (chain: Gateways.Chain, validators: set<Address>)
      ensures this.chain == chain && View() == Deployed(validators)
      ensures fees == Fees.State(map[], map[], 0, 0) && gateway == Gateways.State(map[], {}, {}, validators, [])
    {
      this.chain := chain;
      fees := Fees.Deployed();
      gateway := Gateways.State(map[], {}, {}, validators, []);
    }

    /** Charges what was spent, whether or not the dispatch ran. */
    method Dispatch(request: Gateways.Request, metering: Fees.Metering, body: Behaviour) returns (ok: bool)
      modifies this
      ensures Outcome(old(View()), DispatchEffect(chain, old(View()), request, metering, body), View(), ok)
      decreases body, 3
    {
      var m := metering.(patron := request.target);
      if !Fees.Plausible(m) || Fees.FeeStart(m) >= UINT256_LIMIT {
        return false;
      }
      if Get(fees.feeDeposit, m.patron) < Fees.Offset(m) {
        return false;
      }
      var fees', gateway' := fees, gateway;
      ok := true;
      if Get(fees.feeDeposit, m.patron) >= Fees.FeeStart(m) {
        ok := Guarded(request, m.sender, body);
      }
      if ok {
        var charged := Fees.ChargeEffect(fees, m);
        ok := charged.Some?;
        if ok {
          fees := charged.value;
        } else {
          fees, gateway := fees', gateway';
        }
      }
    }

    method Guarded(request: Gateways.Request, sender: Address, body: Behaviour) returns (ok: bool)
      modifies this
      ensures Outcome(old(View()), GuardedEffect(chain, old(View()), request, sender, body), View(), ok)
      ensures ok <==> && sender in old(gateway).validators && request.isContract
                      && (request.sourceChainId, request.nonce) !in old(gateway).dispatched
                      && SignatureValidator.Accepts(chain.recover, old(gateway).validators,
                                                    Digest(Gateways.MessageOf(chain, request)), request.signatures)
      decreases body, 2
    {
      if sender !in gateway.validators || !request.isContract || (request.sourceChainId, request.nonce) in gateway.dispatched {
        return false;
      }
      var message := Gateways.MessageOf(chain, request);
      var saved := gateway;
      gateway := gateway.(dispatched := gateway.dispatched + {(request.sourceChainId, request.nonce)});
      var verdict := SignatureValidator.ValidateSignaturesWithSupermajority(
        chain.recover, gateway.validators, Digest(message), request.signatures);
      if verdict != SignatureValidator.Valid {
        gateway := saved;
        return false;
      }
      var success := Execute(body);
      gateway := gateway.(log := gateway.log + [Gateways.DispatchedEvent(message, success)]);
      ok := true;
    }

    method Execute(body: Behaviour) returns (success: bool)
      modifies this
      ensures (View(), success) == ExecuteEffect(chain, old(View()), body)
      decreases body, 1
    {
      var fees', gateway' := fees, gateway;
      ghost var before := View();
      for i := 0 to |body.actions|
        invariant View() == ActionsEffect(chain, before, body.actions[..i])
      {
        assert body.actions[..i + 1][..i] == body.actions[..i];
        var _ := Perform(body.actions[i]);
      }
      assert body.actions[..|body.actions|] == body.actions;
      if body.reverts {
        fees, gateway := fees', gateway';
      }
      success := !body.reverts;
    }

    method Perform(action: Action) returns (ok: bool)
      modifies this
      ensures Outcome(old(View()), ActionEffect(chain, old(View()), action), View(), ok)
      decreases action, 4
    {
      match action {
        case Dispatch(request, metering, body) => ok := Dispatch(request, metering, body);
        case DepositFee(sender, value) => ok := Commit(Fees.DepositEffect(fees, sender, value));
        case WithdrawFee(sender, amount, accepted) => ok := Commit(Fees.WithdrawEffect(fees, sender, amount, accepted));
        case RefundFee(sender, accepted) => ok := Commit(Fees.RefundEffect(fees, sender, accepted));
        case SetValidators(validators) =>
          gateway := gateway.(validators := validators);
          ok := true;
        case CallOther(body) => ok := Execute(body);
      }
    }

    method Commit(after: Option<Fees.State>) returns (ok: bool)
      modifies this`fees
      ensures Outcome(old(View()), WithFees(old(View()), after), View(), ok)
    {
      ok := after.Some?;
      if ok {
        fees := after.value;
      }
    }
  }

  ghost predicate Outcome(before: State, effect: Option<State>, after: State, ok: bool) {
    (ok <==> effect.Some?) && after == if ok then effect.value else before
  }

  function Deployed(validators: set<Address>): State {
    State(Fees.Deployed(), Gateways.State(map[], {}, {}, validators, []))
  }

  // ----- what every run keeps

  ghost predicate Kept(s: State, inProgress: set<(nat, nat)>) {
    Fees.Covered(s.fees) && Gateways.Books(s.gateway, inProgress)
  }

  lemma GuardedKeeps(chain: Gateways.Chain, s: State, request: Gateways.Request, sender: Address, body: Behaviour,
                     inProgress: set<(nat, nat)>)
    requires Kept(s, inProgress) && GuardedEffect(chain, s, request, sender, body).Some?
    ensures var s' := GuardedEffect(chain, s, request, sender, body).value;
            Kept(s', inProgress) && s.gateway.log < s'.gateway.log
    decreases body, 2
  {
    var message := Gateways.MessageOf(chain, request);
    var key := Gateways.KeyOf(message);
    Gateways.MarkKeepsBooks(s.gateway, key, inProgress);
    var (after, success) := ExecuteEffect(chain, Marked(s, request), body);
    if !body.reverts {
      ActionsKeep(chain, Marked(s, request), body.actions, inProgress + {key});
    }
    Gateways.LogDispatch(after.gateway, message, success, inProgress);
  }

  lemma DispatchKeeps(chain: Gateways.Chain, s: State, request: Gateways.Request, metering: Fees.Metering, body: Behaviour,
                      inProgress: set<(nat, nat)>)
    requires Kept(s, inProgress) && DispatchEffect(chain, s, request, metering, body).Some?
    ensures var s' := DispatchEffect(chain, s, request, metering, body).value;
            Kept(s', inProgress) && s.gateway.log <= s'.gateway.log
    decreases body, 3
  {
    var m := Billed(request, metering);
    if Deposited(s, request) >= Fees.FeeStart(m) {
      GuardedKeeps(chain, s, request, m.sender, body, inProgress);
      Fees.ChargeCovered(GuardedEffect(chain, s, request, m.sender, body).value.fees, m);
    } else {
      Fees.ChargeCovered(s.fees, m);
    }
  }

  lemma ActionKeeps(chain: Gateways.Chain, s: State, action: Action, inProgress: set<(nat, nat)>)
    requires Kept(s, inProgress) && ActionEffect(chain, s, action).Some?
    ensures var s' := ActionEffect(chain, s, action).value;
            Kept(s', inProgress) && s.gateway.log <= s'.gateway.log
    decreases action, 4
  {
    match action {
      case Dispatch(request, metering, body) => DispatchKeeps(chain, s, request, metering, body, inProgress);
      case DepositFee(sender, value) => Fees.DepositCovered(s.fees, sender, value);
      case WithdrawFee(sender, amount, accepted) => Fees.WithdrawCovered(s.fees, sender, amount, accepted);
      case RefundFee(sender, accepted) => Fees.RefundCovered(s.fees, sender, accepted);
      case SetValidators(validators) => Gateways.SameBooks(s.gateway, s.gateway.(validators := validators), inProgress);
      case CallOther(body) => ActionsKeep(chain, s, body.actions, inProgress);
    }
  }

  lemma ActionsKeep(chain: Gateways.Chain, s: State, actions: seq<Action>, inProgress: set<(nat, nat)>)
    requires Kept(s, inProgress)
    ensures var s' := ActionsEffect(chain, s, actions);
            Kept(s', inProgress) && s.gateway.log <= s'.gateway.log
    decreases actions, 0
  {
    if actions != [] {
      var before := ActionsEffect(chain, s, actions[..|actions| - 1]);
      ActionsKeep(chain, s, actions[..|actions| - 1], inProgress);
      if ActionEffect(chain, before, actions[|actions| - 1]).Some? {
        ActionKeeps(chain, before, actions[|actions| - 1], inProgress);
      }
    }
  }

  /** After any transactions, however they nest, re-enter and revert: nothing is dispatched twice, and the
      ether held is exactly what depositors and callers are owed. */
  lemma DispatchedOnceAndCovered(chain: Gateways.Chain, validators: set<Address>, transactions: seq<Action>)
    ensures var s := ActionsEffect(chain, Deployed(validators), transactions);
            && Gateways.LoggedOnce(s.gateway.log) && s.gateway.dispatched == Gateways.LoggedKeys(s.gateway.log)
            && Fees.Covered(s.fees)
  {
    assert Gateways.Books(Deployed(validators).gateway, {});
    ActionsKeep(chain, Deployed(validators), transactions, {});
    assert Gateways.Books(ActionsEffect(chain, Deployed(validators), transactions).gateway, {});
  }

  // ----- what a caller is paid for

  /** The call takes effect, pays its caller what was spent, and dispatches nothing. */
  ghost predicate PaidWithoutDispatch(chain: Gateways.Chain, s: State, request: Gateways.Request, metering: Fees.Metering,
                                      body: Behaviour)
  {
    var effect := DispatchEffect(chain, s, request, metering, body);
    effect.Some? && effect.value.gateway == s.gateway
  }

  /** Exactly when a caller is paid without a dispatch, whoever it is and whatever it submits: the target's
      deposit covers the offset and what was spent, but not all the gas there was at the start. */
  lemma PaidWithoutDispatchIff(chain: Gateways.Chain, s: State, request: Gateways.Request, metering: Fees.Metering, body: Behaviour,
                               inProgress: set<(nat, nat)>)
    requires Kept(s, inProgress)
    ensures var m := Billed(request, metering);
            PaidWithoutDispatch(chain, s, request, metering, body) <==>
            && Fees.Admits(s.fees, m)
            && Fees.Spent(m) <= Deposited(s, request) < Fees.FeeStart(m)
    ensures PaidWithoutDispatch(chain, s, request, metering, body) ==>
              var m := Billed(request, metering);
              var fees := DispatchEffect(chain, s, request, metering, body).value.fees;
              && Get(fees.feeDeposit, request.target) == Deposited(s, request) - Fees.Spent(m)
              && Get(fees.feeRefund, m.sender) == Get(s.fees.feeRefund, m.sender) + Fees.Spent(m)
  {
    var m := Billed(request, metering);
    if Metered(s, request, metering) {
      if Deposited(s, request) >= Fees.FeeStart(m) {
        if GuardedEffect(chain, s, request, m.sender, body).Some? {
          GuardedKeeps(chain, s, request, m.sender, body, inProgress);
        }
      } else {
        Fees.ChargeCovered(s.fees, m);
      }
    }
  }

  /** With a deposit that covers all the gas a caller is paid exactly when it is a validator that dispatches
      a fresh, accepted message to a contract, and the deposit left by the call covers what was spent; the
      message is then the last one logged. */
  lemma PaidForDispatchIff(chain: Gateways.Chain, s: State, request: Gateways.Request, metering: Fees.Metering, body: Behaviour,
                           inProgress: set<(nat, nat)>)
    requires Kept(s, inProgress) && Fees.Admits(s.fees, Billed(request, metering))
    requires Fees.FeeStart(Billed(request, metering)) <= Deposited(s, request)
    ensures var m := Billed(request, metering);
            var effect := DispatchEffect(chain, s, request, metering, body);
            && (effect.Some? <==>
                && m.sender in s.gateway.validators && request.isContract
                && (request.sourceChainId, request.nonce) !in s.gateway.dispatched
                && SignatureValidator.Accepts(chain.recover, s.gateway.validators,
                                              Digest(Gateways.MessageOf(chain, request)), request.signatures)
                && Fees.Spent(m) <= Deposited(ExecuteEffect(chain, Marked(s, request), body).0, request))
            && (effect.Some? ==>
                  var log := effect.value.gateway.log;
                  && s.gateway.log < log
                  && log[|log| - 1] == Gateways.DispatchedEvent(Gateways.MessageOf(chain, request), !body.reverts))
  {
    var m := Billed(request, metering);
    if Admitted(chain, s, request, m.sender) {
      GuardedKeeps(chain, s, request, m.sender, body, inProgress);
      Fees.ChargeCovered(GuardedEffect(chain, s, request, m.sender, body).value.fees, m);
    }
  }

  // ----- what the called contract did

  /** A dispatch that runs marks its key and logs its outcome. What the target did is kept if its frame did
      not revert, and undone if it did; then the caller is charged to the target. */
  lemma TargetsEffectIsKeptIff(chain: Gateways.Chain, s: State, request: Gateways.Request, metering: Fees.Metering, body: Behaviour,
                               inProgress: set<(nat, nat)>)
    requires Kept(s, inProgress) && Fees.Admits(s.fees, Billed(request, metering))
    requires Fees.FeeStart(Billed(request, metering)) <= Deposited(s, request)
    requires DispatchEffect(chain, s, request, metering, body).Some?
    ensures var s' := DispatchEffect(chain, s, request, metering, body).value;
            var marked := s.(gateway := s.gateway.(dispatched := s.gateway.dispatched + {(request.sourceChainId, request.nonce)}));
            var after := if body.reverts then marked else ActionsEffect(chain, marked, body.actions);
            && s'.gateway == after.gateway.(log := after.gateway.log +
                                                   [Gateways.DispatchedEvent(Gateways.MessageOf(chain, request), !body.reverts)])
            && Fees.Charges(after.fees, s'.fees, Billed(request, metering))
  {
    var m := Billed(request, metering);
    GuardedKeeps(chain, s, request, m.sender, body, inProgress);
    Fees.ChargeCovered(GuardedEffect(chain, s, request, m.sender, body).value.fees, m);
  }

  /** What the next call makes of the state: one that reverts is as if it had not been made. */
  ghost function Next(chain: Gateways.Chain, s: State, action: Action): State {
    match action
    case CallOther(body) => if body.reverts then s else ActionsEffect(chain, s, body.actions)
    case Dispatch(request, metering, body) => Else(DispatchEffect(chain, s, request, metering, body), s)
    case DepositFee(sender, value) => s.(fees := Fees.Else(Fees.DepositEffect(s.fees, sender, value), s.fees))
    case WithdrawFee(sender, amount, accepted) => s.(fees := Fees.Else(Fees.WithdrawEffect(s.fees, sender, amount, accepted), s.fees))
    case RefundFee(sender, accepted) => s.(fees := Fees.Else(Fees.RefundEffect(s.fees, sender, accepted), s.fees))
    case SetValidators(validators) => s.(gateway := s.gateway.(validators := validators))
  }

  /** Calls take effect one after the other. */
  lemma CallsTakeEffectInTurn(chain: Gateways.Chain, s: State, actions: seq<Action>, action: Action)
    ensures ActionsEffect(chain, s, []) == s
    ensures ActionsEffect(chain, s, actions + [action]) == Next(chain, ActionsEffect(chain, s, actions), action)
  {
    assert (actions + [action])[..|actions|] == actions;
  }

  function Else(after: Option<State>, before: State): State {
    if after.Some? then after.value else before
  }
}
