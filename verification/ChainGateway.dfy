/** One chain's gateway: it numbers outgoing messages, and dispatches incoming ones at most once
    although the called contract may call back into the gateway and any call frame may revert. */
module ChainGateway {
  import opened Base
  import opened Messages
  import opened SignatureValidator

  /** A dispatch request as submitted; `isContract` says whether the target has code. */
  datatype Request = Request(
    sourceChainId: nat, target: Address, call: Bytes, gasLimit: nat, nonce: nat,
    signatures: seq<Signature>, isContract: bool)

  /** What a called contract does: its calls in order, then whether its frame reverts. Running out
      of gas and passing on the failure of a call are both reverts. */
  datatype Behaviour = Behaviour(actions: seq<Action>, reverts: bool)

  datatype Action =
    | CallDispatch(request: Request, body: Behaviour)
    | CallRelay(sender: Address, targetChainId: nat, target: Address, call: Bytes, gasLimit: nat)
    | CallOther(body: Behaviour)
    | SetRegistered(account: Address, registered: bool)
    | SetValidators(validators: set<Address>)

  datatype Event =
    | RelayedEvent(relayed: Relayed)
    | DispatchedEvent(message: RelayEvent, success: bool)

  datatype State = State(
    nonces: map<nat, nat>,
    registered: set<Address>,
    dispatched: set<(nat, nat)>,
    validators: set<Address>,
    log: seq<Event>)

  datatype Chain = Chain(id: nat, recover: Recover)

  /** The message the signatures must cover; the target chain is always the dispatching one. */
  function MessageOf(chain: Chain, request: Request): RelayEvent {
    RelayEvent(request.sourceChainId, chain.id, request.target, request.call, request.gasLimit, request.nonce)
  }

  function NonceFor(nonces: map<nat, nat>, targetChainId: nat): nat {
    if targetChainId in nonces then nonces[targetChainId] else 0
  }

  // ----- effects of calls; a reverted call leaves the state it started from

  ghost function RelayEffect(s: State, sender: Address, targetChainId: nat, target: Address, call: Bytes,
                             gasLimit: nat): (State, bool) {
    var nonce := NonceFor(s.nonces, targetChainId) + 1;
    if sender !in s.registered || nonce >= UINT256_LIMIT then (s, false)
    else
      (s.(nonces := s.nonces[targetChainId := nonce],
          log := s.log + [RelayedEvent(Relayed(targetChainId, target, call, gasLimit, nonce))]), true)
  }

  ghost function DispatchEffect(chain: Chain, s: State, request: Request, body: Behaviour): (State, bool)
    decreases body, 2
  {
    var key := (request.sourceChainId, request.nonce);
    var message := MessageOf(chain, request);
    if key in s.dispatched then (s, false)
    else if !Accepts(chain.recover, s.validators, Digest(message), request.signatures) then (s, false)
    else
      var marked := s.(dispatched := s.dispatched + {key});
      var (after, success) := if request.isContract then ExecuteEffect(chain, marked, body) else (marked, false);
      (after.(log := after.log + [DispatchedEvent(message, success)]), true)
  }

  ghost function ExecuteEffect(chain: Chain, s: State, body: Behaviour): (State, bool)
    decreases body, 1
  {
    var after := ActionsEffect(chain, s, body.actions);
    if body.reverts then (s, false) else (after, true)
  }

  ghost function ActionsEffect(chain: Chain, s: State, actions: seq<Action>): State
    decreases actions, 0
  {
    if actions == [] then s
    else ActionEffect(chain, ActionsEffect(chain, s, actions[..|actions| - 1]), actions[|actions| - 1])
  }

  ghost function ActionEffect(chain: Chain, s: State, action: Action): State
    decreases action, 3
  {
    match action
    case CallDispatch(request, body) => DispatchEffect(chain, s, request, body).0
    case CallRelay(sender, targetChainId, target, call, gasLimit) =>
      RelayEffect(s, sender, targetChainId, target, call, gasLimit).0
    case CallOther(body) => ExecuteEffect(chain, s, body).0
    case SetRegistered(account, registered) =>
      s.(registered := if registered then s.registered + {account} else s.registered - {account})
    case SetValidators(validators) => s.(validators := validators)
  }

  // ----- the gateway contract

  class Gateway {
    const chain: Chain
    var nonces: map<nat, nat>
    var registered: set<Address>
    var dispatched: set<(nat, nat)>
    var validators: set<Address>
    var log: seq<Event>

    ghost function View(): State
      reads this
    {
      State(nonces, registered, dispatched, validators, log)
    }

    constructor (chain: Chain, validators: set<Address>)
      ensures this.chain == chain && View() == Deployed(validators)
      ensures nonces == map[] && registered == {} && dispatched == {} && log == [] && this.validators == validators
    {
      this.chain := chain;
      nonces, registered, dispatched, log := map[], {}, {}, [];
      this.validators := validators;
    }

    method Relay(sender: Address, targetChainId: nat, target: Address, call: Bytes, gasLimit: nat)
      returns (ok: bool, nonce: nat)
      modifies this
      ensures (View(), ok) == RelayEffect(old(View()), sender, targetChainId, target, call, gasLimit)
      ensures ok <==> sender in old(registered) && NonceFor(old(nonces), targetChainId) + 1 < UINT256_LIMIT
      ensures !ok ==> View() == old(View())
      ensures ok ==> nonce == NonceFor(old(nonces), targetChainId) + 1
      ensures ok ==> log == old(log) + [RelayedEvent(Relayed(targetChainId, target, call, gasLimit, nonce))]
      ensures ok ==> forall t :: NonceFor(nonces, t) == if t == targetChainId then nonce else NonceFor(old(nonces), t)
      ensures registered == old(registered) && dispatched == old(dispatched) && validators == old(validators)
    {
      nonce := NonceFor(nonces, targetChainId) + 1;
      ok := sender in registered && nonce < UINT256_LIMIT;
      if ok {
        nonces := nonces[targetChainId := nonce];
        log := log + [RelayedEvent(Relayed(targetChainId, target, call, gasLimit, nonce))];
      }
    }

    /** Marks before it validates and calls; `body` is what the target does when called. */
    method Dispatch(request: Request, body: Behaviour) returns (ok: bool)
      modifies this
      ensures (View(), ok) == DispatchEffect(chain, old(View()), request, body)
      decreases body, 2
    {
      var key := (request.sourceChainId, request.nonce);
      if key in dispatched {
        return false;
      }
      var saved := dispatched;
      dispatched := dispatched + {key};
      var message := MessageOf(chain, request);
      var verdict := ValidateSignaturesWithSupermajority(chain.recover, validators, Digest(message), request.signatures);
      if verdict != Valid {
        dispatched := saved;
        return false;
      }
      var success := false;
      if request.isContract {
        success := Execute(body);
      }
      log := log + [DispatchedEvent(message, success)];
      ok := true;
    }

    /** A call frame: a revert restores everything the frame changed. */
    method Execute(body: Behaviour) returns (success: bool)
      modifies this
      ensures (View(), success) == ExecuteEffect(chain, old(View()), body)
      decreases body, 1
    {
      var nonces', registered', dispatched', validators', log' := nonces, registered, dispatched, validators, log;
      ghost var before := View();
      for i := 0 to |body.actions|
        invariant View() == ActionsEffect(chain, before, body.actions[..i])
      {
        assert body.actions[..i + 1][..i] == body.actions[..i];
        Perform(body.actions[i]);
      }
      assert body.actions[..|body.actions|] == body.actions;
      if body.reverts {
        nonces, registered, dispatched, validators, log := nonces', registered', dispatched', validators', log';
      }
      success := !body.reverts;
    }

    method Perform(action: Action)
      modifies this
      ensures View() == ActionEffect(chain, old(View()), action)
      decreases action, 3
    {
      match action {
        case CallDispatch(request, body) =>
          var _ := Dispatch(request, body);
        case CallRelay(sender, targetChainId, target, call, gasLimit) =>
          var _, _ := Relay(sender, targetChainId, target, call, gasLimit);
        case CallOther(body) =>
          var _ := Execute(body);
        case SetRegistered(account, isRegistered) =>
          registered := if isRegistered then registered + {account} else registered - {account};
        case SetValidators(changed) =>
          validators := changed;
      }
    }
  }

  ghost function Deployed(validators: set<Address>): State {
    State(map[], {}, {}, validators, [])
  }

  // ----- at most once, gap-free numbering

  function KeyOf(message: RelayEvent): (nat, nat) {
    (message.sourceChainId, message.nonce)
  }

  ghost function LoggedKeys(log: seq<Event>): set<(nat, nat)> {
    set i | 0 <= i < |log| && log[i].DispatchedEvent? :: KeyOf(log[i].message)
  }

  ghost predicate LoggedOnce(log: seq<Event>) {
    forall i, j :: 0 <= i < j < |log| && log[i].DispatchedEvent? && log[j].DispatchedEvent? ==>
                     KeyOf(log[i].message) != KeyOf(log[j].message)
  }

  /** The messages relayed to one chain, oldest first. */
  function RelayedTo(log: seq<Event>, targetChainId: nat): seq<Relayed> {
    if log == [] then []
    else
      var earlier := RelayedTo(log[..|log| - 1], targetChainId);
      var last := log[|log| - 1];
      if last.RelayedEvent? && last.relayed.targetChainId == targetChainId then earlier + [last.relayed] else earlier
  }

  /** Nonces count 1, 2, 3, ... without a gap. */
  ghost predicate Consecutive(relays: seq<Relayed>) {
    forall i :: 0 <= i < |relays| ==> relays[i].nonce == i + 1
  }

  ghost predicate Numbered(s: State) {
    forall t :: NonceFor(s.nonces, t) == |RelayedTo(s.log, t)| && Consecutive(RelayedTo(s.log, t))
  }

  /** A key is marked when its entry is in the log or its dispatch is still in progress. */
  ghost predicate Marked(s: State, inProgress: set<(nat, nat)>) {
    && s.dispatched == LoggedKeys(s.log) + inProgress
    && LoggedKeys(s.log) !! inProgress
    && LoggedOnce(s.log)
  }

  ghost predicate Books(s: State, inProgress: set<(nat, nat)>) {
    Numbered(s) && Marked(s, inProgress)
  }

  lemma LogRelay(s: State, sender: Address, targetChainId: nat, target: Address, call: Bytes, gasLimit: nat,
                 inProgress: set<(nat, nat)>)
    requires Books(s, inProgress)
    ensures Books(RelayEffect(s, sender, targetChainId, target, call, gasLimit).0, inProgress)
    ensures s.log <= RelayEffect(s, sender, targetChainId, target, call, gasLimit).0.log
  {
    var s' := RelayEffect(s, sender, targetChainId, target, call, gasLimit).0;
    if s' != s {
      var last := s'.log[|s.log|];
      assert s'.log == s.log + [last] && s'.log[..|s.log|] == s.log;
      assert LoggedKeys(s'.log) == LoggedKeys(s.log);
      forall t
        ensures NonceFor(s'.nonces, t) == |RelayedTo(s'.log, t)| && Consecutive(RelayedTo(s'.log, t))
      {
        assert NonceFor(s.nonces, t) == |RelayedTo(s.log, t)| && Consecutive(RelayedTo(s.log, t));
      }
    }
  }

  lemma LogDispatch(s: State, message: RelayEvent, success: bool, inProgress: set<(nat, nat)>)
    requires Books(s, inProgress + {KeyOf(message)}) && KeyOf(message) !in inProgress
    ensures Books(s.(log := s.log + [DispatchedEvent(message, success)]), inProgress)
  {
    var log := s.log + [DispatchedEvent(message, success)];
    assert log[..|s.log|] == s.log;
    assert forall i :: 0 <= i < |s.log| ==> log[i] == s.log[i];
    assert KeyOf(message) in LoggedKeys(log) by {
      assert log[|s.log|].DispatchedEvent?;
    }
    assert LoggedKeys(log) == LoggedKeys(s.log) + {KeyOf(message)};
    assert forall i :: 0 <= i < |s.log| && s.log[i].DispatchedEvent? ==> KeyOf(s.log[i].message) in LoggedKeys(s.log);
    forall t
      ensures RelayedTo(log, t) == RelayedTo(s.log, t)
    {
    }
    assert forall t :: NonceFor(s.nonces, t) == |RelayedTo(s.log, t)| && Consecutive(RelayedTo(s.log, t));
  }

  /** A key that is marked is in progress. */
  lemma MarkKeepsBooks(s: State, key: (nat, nat), inProgress: set<(nat, nat)>)
    requires Books(s, inProgress) && key !in s.dispatched
    ensures Books(s.(dispatched := s.dispatched + {key}), inProgress + {key})
  {
    var marked := s.(dispatched := s.dispatched + {key});
    forall t
      ensures NonceFor(marked.nonces, t) == |RelayedTo(marked.log, t)| && Consecutive(RelayedTo(marked.log, t))
    {
      assert NonceFor(s.nonces, t) == |RelayedTo(s.log, t)|;
    }
  }

  lemma DispatchKeepsBooks(chain: Chain, s: State, request: Request, body: Behaviour, inProgress: set<(nat, nat)>)
    requires Books(s, inProgress)
    ensures Books(DispatchEffect(chain, s, request, body).0, inProgress)
    ensures s.log <= DispatchEffect(chain, s, request, body).0.log
    decreases body, 2
  {
    var message := MessageOf(chain, request);
    var (s', ok) := DispatchEffect(chain, s, request, body);
    if ok {
      var key := KeyOf(message);
      var marked := s.(dispatched := s.dispatched + {key});
      MarkKeepsBooks(s, key, inProgress);
      if request.isContract {
        ExecuteKeepsBooks(chain, marked, body, inProgress + {key});
        var (after, success) := ExecuteEffect(chain, marked, body);
        LogDispatch(after, message, success, inProgress);
      } else {
        LogDispatch(marked, message, false, inProgress);
      }
    }
  }

  lemma ExecuteKeepsBooks(chain: Chain, s: State, body: Behaviour, inProgress: set<(nat, nat)>)
    requires Books(s, inProgress)
    ensures Books(ExecuteEffect(chain, s, body).0, inProgress)
    ensures s.log <= ExecuteEffect(chain, s, body).0.log
    decreases body, 1
  {
    ActionsKeepBooks(chain, s, body.actions, inProgress);
  }

  lemma ActionsKeepBooks(chain: Chain, s: State, actions: seq<Action>, inProgress: set<(nat, nat)>)
    requires Books(s, inProgress)
    ensures Books(ActionsEffect(chain, s, actions), inProgress)
    ensures s.log <= ActionsEffect(chain, s, actions).log
    decreases actions, 0
  {
    if actions != [] {
      ActionsKeepBooks(chain, s, actions[..|actions| - 1], inProgress);
      ActionKeepsBooks(chain, ActionsEffect(chain, s, actions[..|actions| - 1]), actions[|actions| - 1], inProgress);
    }
  }

  lemma ActionKeepsBooks(chain: Chain, s: State, action: Action, inProgress: set<(nat, nat)>)
    requires Books(s, inProgress)
    ensures Books(ActionEffect(chain, s, action), inProgress)
    ensures s.log <= ActionEffect(chain, s, action).log
    decreases action, 3
  {
    match action {
      case CallDispatch(request, body) => DispatchKeepsBooks(chain, s, request, body, inProgress);
      case CallRelay(sender, targetChainId, target, call, gasLimit) =>
        LogRelay(s, sender, targetChainId, target, call, gasLimit, inProgress);
      case CallOther(body) => ExecuteKeepsBooks(chain, s, body, inProgress);
      case SetRegistered(_, _) => SameBooks(s, ActionEffect(chain, s, action), inProgress);
      case SetValidators(_) => SameBooks(s, ActionEffect(chain, s, action), inProgress);
    }
  }

  lemma SameBooks(s: State, s': State, inProgress: set<(nat, nat)>)
    requires Books(s, inProgress)
    requires s'.nonces == s.nonces && s'.dispatched == s.dispatched && s'.log == s.log
    ensures Books(s', inProgress)
  {
    assert forall t :: NonceFor(s.nonces, t) == |RelayedTo(s.log, t)| && Consecutive(RelayedTo(s.log, t));
  }

  /** Whatever the transactions on a gateway do, nested, re-entrant or reverting: the log holds at
      most one entry per (source chain, nonce), a key is marked exactly when its entry is in the
      log, and the nonces towards each target chain are 1, 2, ..., k. */
  lemma AtMostOnce(chain: Chain, validators: set<Address>, transactions: seq<Action>)
    ensures var s := ActionsEffect(chain, Deployed(validators), transactions);
            && LoggedOnce(s.log)
            && s.dispatched == LoggedKeys(s.log)
            && forall t :: NonceFor(s.nonces, t) == |RelayedTo(s.log, t)| && Consecutive(RelayedTo(s.log, t))
  {
    assert Books(Deployed(validators), {});
    ActionsKeepBooks(chain, Deployed(validators), transactions, {});
    assert Books(ActionsEffect(chain, Deployed(validators), transactions), {});
  }

  /** A request goes through exactly when it is fresh and accepted, and then its own entry is the
      last one logged, successful exactly when the target is a contract whose frame did not revert. */
  lemma DispatchGoesThrough(chain: Chain, s: State, request: Request, body: Behaviour)
    requires Books(s, {})
    ensures var message := MessageOf(chain, request);
            var (s', ok) := DispatchEffect(chain, s, request, body);
            && (ok <==> KeyOf(message) !in LoggedKeys(s.log) &&
                        Accepts(chain.recover, s.validators, Digest(message), request.signatures))
            && (ok ==> s'.log != [] && s.log <= s'.log[..|s'.log| - 1] &&
                       s'.log[|s'.log| - 1] == DispatchedEvent(message, request.isContract && !body.reverts))
            && (!ok ==> s' == s)
  {
    DispatchKeepsBooks(chain, s, request, body, {});
    var (s', ok) := DispatchEffect(chain, s, request, body);
    if ok {
      assert s'.log[|s'.log| - 1].DispatchedEvent?;
      assert KeyOf(MessageOf(chain, request)) in LoggedKeys(s'.log);
    }
  }

  // ----- who may relay

  /** Exactly when a message is relayed, and that it then is the one new entry under the next nonce for its
      target chain, and nothing else changes. */
  lemma RelaysIff(s: State, sender: Address, targetChainId: nat, target: Address, call: Bytes, gasLimit: nat)
    ensures var (s', ok) := RelayEffect(s, sender, targetChainId, target, call, gasLimit);
            var nonce := NonceFor(s.nonces, targetChainId) + 1;
            && (ok <==> sender in s.registered && nonce < UINT256_LIMIT)
            && (!ok ==> s' == s)
            && (ok ==> && s' == s.(nonces := s'.nonces, log := s.log + [RelayedEvent(Relayed(targetChainId, target, call, gasLimit, nonce))])
                       && forall t :: NonceFor(s'.nonces, t) == if t == targetChainId then nonce else NonceFor(s.nonces, t))
  {
  }

  /** The account is registered nowhere in the call trees. */
  ghost predicate NeverRegistered(account: Address, actions: seq<Action>)
    decreases actions, 0
  {
    forall i :: 0 <= i < |actions| ==> NotRegisteredBy(account, actions[i])
  }

  ghost predicate NotRegisteredBy(account: Address, action: Action)
    decreases action, 1
  {
    match action
    case CallDispatch(_, body) => NeverRegistered(account, body.actions)
    case CallOther(body) => NeverRegistered(account, body.actions)
    case SetRegistered(registered, on) => registered == account ==> !on
    case _ => true
  }

  /** The call trees without the account's relays. */
  function Silenced(account: Address, actions: seq<Action>): (r: seq<Action>)
    ensures |r| == |actions|
    decreases actions, 0
  {
    if actions == [] then []
    else Silenced(account, actions[..|actions| - 1]) + [WithoutRelays(account, actions[|actions| - 1])]
  }

  function WithoutRelays(account: Address, action: Action): Action
    decreases action, 1
  {
    match action
    case CallDispatch(request, body) => CallDispatch(request, Behaviour(Silenced(account, body.actions), body.reverts))
    case CallOther(body) => CallOther(Behaviour(Silenced(account, body.actions), body.reverts))
    case CallRelay(sender, _, _, _, _) => if sender == account then CallOther(Behaviour([], false)) else action
    case _ => action
  }

  /** From its removal to its next registration an account relays nothing, wherever it tries to in call trees:
      everything is as if it had not tried. */
  lemma RemovedSenderIsSilent(chain: Chain, s: State, account: Address, actions: seq<Action>)
    requires account !in s.registered && NeverRegistered(account, actions)
    ensures account !in ActionsEffect(chain, s, actions).registered
    ensures ActionsEffect(chain, s, actions) == ActionsEffect(chain, s, Silenced(account, actions))
    decreases actions, 0
  {
    if actions != [] {
      var earlier, last := actions[..|actions| - 1], actions[|actions| - 1];
      assert NeverRegistered(account, earlier) by {
        assert forall i :: 0 <= i < |earlier| ==> earlier[i] == actions[i];
      }
      RemovedSenderIsSilent(chain, s, account, earlier);
      SilentIn(chain, ActionsEffect(chain, s, earlier), account, last);
      assert Silenced(account, actions)[..|earlier|] == Silenced(account, earlier);
    }
  }

  lemma SilentIn(chain: Chain, s: State, account: Address, action: Action)
    requires account !in s.registered && NotRegisteredBy(account, action)
    ensures account !in ActionEffect(chain, s, action).registered
    ensures ActionEffect(chain, s, action) == ActionEffect(chain, s, WithoutRelays(account, action))
    decreases action, 3
  {
    match action {
      case CallDispatch(request, body) =>
        var marked := s.(dispatched := s.dispatched + {(request.sourceChainId, request.nonce)});
        RemovedSenderIsSilent(chain, marked, account, body.actions);
        var silenced := Behaviour(Silenced(account, body.actions), body.reverts);
        assert ExecuteEffect(chain, marked, body) == ExecuteEffect(chain, marked, silenced);
        assert DispatchEffect(chain, s, request, body) == DispatchEffect(chain, s, request, silenced);
        assert account !in DispatchEffect(chain, s, request, body).0.registered;
        assert ActionEffect(chain, s, CallDispatch(request, silenced)) == DispatchEffect(chain, s, request, silenced).0;
      case CallOther(body) => RemovedSenderIsSilent(chain, s, account, body.actions);
      case _ =>
    }
  }

  /** Registration and removal take effect for the account alone. */
  lemma RegistrationChangesOne(chain: Chain, s: State, account: Address, on: bool)
    ensures var s' := ActionEffect(chain, s, SetRegistered(account, on));
            && s' == s.(registered := s'.registered)
            && forall a :: a in s'.registered <==> if a == account then on else a in s.registered
  {
  }

  /** A change of the validators takes effect at once, for them alone. */
  lemma ValidatorsChange(chain: Chain, s: State, validators: set<Address>, request: Request, body: Behaviour)
    ensures var s' := ActionEffect(chain, s, SetValidators(validators));
            && s' == s.(validators := validators)
            && (DispatchEffect(chain, s', request, body).1 <==>
                && (request.sourceChainId, request.nonce) !in s.dispatched
                && Accepts(chain.recover, validators, Digest(MessageOf(chain, request)), request.signatures))
  {
  }
}
