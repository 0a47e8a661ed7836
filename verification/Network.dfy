/** All gateways together with the validators that sign what they observe. Whoever is not honest signs
    anything; nobody produces an honest validator's signature on a digest it did not sign. */
module Network {
  import opened Base
  import opened Messages
  import opened SignatureValidator
  import opened ChainGateway
  import BridgeNode

  /** `corrected` is what honest nodes make of a log entry of a chain: the entry itself, unless an
      exception is configured for the transaction it stems from. */
  datatype Setting = Setting(recover: Recover, honest: set<Address>, corrected: (nat, nat, Relayed) -> Relayed)

  datatype Net = Net(chains: map<nat, State>, signed: set<(Address, Digest)>)

  datatype Step =
    | Transact(chainId: nat, transaction: Action)
    | HonestSign(validator: Address, sourceChainId: nat, index: nat)
    | FaultySign(validator: Address, digest: Digest)

  function ChainOf(w: Setting, chainId: nat): Chain {
    Chain(chainId, w.recover)
  }

  // ----- what the environment can do

  /** On the digest it is submitted for, the signature is not an honest validator's, or that validator
      signed the digest. What it would recover to on other digests does not matter. */
  ghost predicate Unforged(w: Setting, signed: set<(Address, Digest)>, digest: Digest, signature: Signature) {
    var signer := w.recover(digest, signature);
    signer.Some? && signer.value in w.honest ==> (signer.value, digest) in signed
  }

  /** At most two thirds of the validators of a chain are not honest. */
  ghost predicate Bounded(w: Setting, validators: set<Address>) {
    3 * |validators - w.honest| <= 2 * |validators|
  }

  /** The signatures and validator sets occurring anywhere in a transaction's call tree on a chain. */
  ghost predicate Possible(w: Setting, chainId: nat, signed: set<(Address, Digest)>, action: Action)
    decreases action, 1
  {
    match action
    case CallDispatch(request, body) =>
      && NoneForged(w, chainId, signed, request)
      && AllPossible(w, chainId, signed, body.actions)
    case CallOther(body) => AllPossible(w, chainId, signed, body.actions)
    case SetValidators(validators) => Bounded(w, validators)
    case _ => true
  }

  ghost predicate NoneForged(w: Setting, chainId: nat, signed: set<(Address, Digest)>, request: Request) {
    forall i :: 0 <= i < |request.signatures| ==>
                  Unforged(w, signed, Digest(MessageOf(ChainOf(w, chainId), request)), request.signatures[i])
  }

  ghost predicate AllPossible(w: Setting, chainId: nat, signed: set<(Address, Digest)>, actions: seq<Action>)
    decreases actions, 0
  {
    forall i :: 0 <= i < |actions| ==> Possible(w, chainId, signed, actions[i])
  }

  /** What an honest node signs for an entry of a chain's log. */
  function Reported(w: Setting, net: Net, sourceChainId: nat, index: nat): RelayEvent
    requires sourceChainId in net.chains && index < |net.chains[sourceChainId].log|
    requires net.chains[sourceChainId].log[index].RelayedEvent?
  {
    EventFrom(w.corrected(sourceChainId, index, net.chains[sourceChainId].log[index].relayed), sourceChainId)
  }

  ghost predicate IsEntry(net: Net, sourceChainId: nat, index: nat) {
    && sourceChainId in net.chains && index < |net.chains[sourceChainId].log|
    && net.chains[sourceChainId].log[index].RelayedEvent?
  }

  ghost predicate Enabled(w: Setting, net: Net, step: Step) {
    match step
    case Transact(chainId, transaction) => chainId in net.chains && Possible(w, chainId, net.signed, transaction)
    // an honest node signs what it reads from the committed log of a chain it follows
    case HonestSign(validator, sourceChainId, index) => validator in w.honest && IsEntry(net, sourceChainId, index)
    case FaultySign(validator, _) => validator !in w.honest
  }

  ghost function Apply(w: Setting, net: Net, step: Step): Net
    requires Enabled(w, net, step)
  {
    match step
    case Transact(chainId, transaction) =>
      net.(chains := net.chains[chainId := ActionEffect(ChainOf(w, chainId), net.chains[chainId], transaction)])
    case HonestSign(validator, sourceChainId, index) =>
      net.(signed := net.signed + {(validator, Digest(Reported(w, net, sourceChainId, index)))})
    case FaultySign(validator, digest) => net.(signed := net.signed + {(validator, digest)})
  }

  /** Steps that are not possible when they come up are skipped. */
  ghost function Run(w: Setting, net: Net, steps: seq<Step>): Net {
    if steps == [] then net
    else
      var before := Run(w, net, steps[..|steps| - 1]);
      if Enabled(w, before, steps[|steps| - 1]) then Apply(w, before, steps[|steps| - 1]) else before
  }

  ghost function Start(validators: map<nat, set<Address>>): Net {
    Net(map chainId | chainId in validators :: Deployed(validators[chainId]), {})
  }

  // ----- the invariant

  /** The message is what honest nodes report of some entry its source chain relayed. */
  ghost predicate Observed(w: Setting, net: Net, message: RelayEvent) {
    exists i :: IsEntry(net, message.sourceChainId, i) && Reported(w, net, message.sourceChainId, i) == message
  }

  /** The message is the one its source chain relayed to its target chain under its nonce. */
  ghost predicate Authentic(net: Net, message: RelayEvent) {
    && message.sourceChainId in net.chains
    && var relays := RelayedTo(net.chains[message.sourceChainId].log, message.targetChainId);
    && 1 <= message.nonce <= |relays|
    && EventFrom(relays[message.nonce - 1], message.sourceChainId) == message
  }

  /** Everything logged as dispatched bears an honest signature. */
  ghost predicate Vouched(w: Setting, chainId: nat, signed: set<(Address, Digest)>, s: State) {
    && Bounded(w, s.validators)
    && forall i :: 0 <= i < |s.log| && s.log[i].DispatchedEvent? ==> HonestlySigned(w, chainId, signed, s.log[i].message)
  }

  ghost predicate HonestlySigned(w: Setting, chainId: nat, signed: set<(Address, Digest)>, message: RelayEvent) {
    message.targetChainId == chainId && exists v :: v in w.honest && (v, Digest(message)) in signed
  }

  ghost predicate Invariant(w: Setting, net: Net) {
    && (forall c :: c in net.chains ==> Books(net.chains[c], {}) && Vouched(w, c, net.signed, net.chains[c]))
    && (forall v, d :: (v, d) in net.signed && v in w.honest ==> Observed(w, net, d.body))
  }

  // ----- honest signatures through call trees

  lemma AcceptedIsHonestlySigned(w: Setting, chainId: nat, signed: set<(Address, Digest)>, s: State, request: Request)
    requires Bounded(w, s.validators) && NoneForged(w, chainId, signed, request)
    requires Accepts(w.recover, s.validators, Digest(MessageOf(ChainOf(w, chainId), request)), request.signatures)
    ensures HonestlySigned(w, chainId, signed, MessageOf(ChainOf(w, chainId), request))
  {
    var digest := Digest(MessageOf(ChainOf(w, chainId), request));
    var i := QuorumHasHonestSigner(w.recover, s.validators, w.honest, digest, request.signatures);
    assert Unforged(w, signed, digest, request.signatures[i]);
    assert (w.recover(digest, request.signatures[i]).value, digest) in signed;
  }

  lemma ActionKeepsVouched(w: Setting, chainId: nat, signed: set<(Address, Digest)>, s: State, action: Action)
    requires Vouched(w, chainId, signed, s) && Possible(w, chainId, signed, action)
    ensures Vouched(w, chainId, signed, ActionEffect(ChainOf(w, chainId), s, action))
    decreases action, 1
  {
    var chain := ChainOf(w, chainId);
    match action {
      case CallDispatch(request, body) =>
        var (s', ok) := DispatchEffect(chain, s, request, body);
        if ok {
          AcceptedIsHonestlySigned(w, chainId, signed, s, request);
          var marked := s.(dispatched := s.dispatched + {(request.sourceChainId, request.nonce)});
          ActionsKeepVouched(w, chainId, signed, marked, body.actions);
          var after := if request.isContract then ExecuteEffect(chain, marked, body).0 else marked;
          assert Vouched(w, chainId, signed, after);
          assert s'.log == after.log + [s'.log[|after.log|]] && s'.validators == after.validators;
        }
      case CallOther(body) => ActionsKeepVouched(w, chainId, signed, s, body.actions);
      case _ =>
    }
  }

  lemma ActionsKeepVouched(w: Setting, chainId: nat, signed: set<(Address, Digest)>, s: State, actions: seq<Action>)
    requires Vouched(w, chainId, signed, s) && AllPossible(w, chainId, signed, actions)
    ensures Vouched(w, chainId, signed, ActionsEffect(ChainOf(w, chainId), s, actions))
    decreases actions, 0
  {
    if actions != [] {
      var earlier := actions[..|actions| - 1];
      assert AllPossible(w, chainId, signed, earlier) by {
        assert forall i :: 0 <= i < |earlier| ==> earlier[i] == actions[i];
      }
      ActionsKeepVouched(w, chainId, signed, s, earlier);
      ActionKeepsVouched(w, chainId, signed, ActionsEffect(ChainOf(w, chainId), s, earlier), actions[|actions| - 1]);
    }
  }

  // ----- logs only grow, so authenticity lasts

  lemma {:induction false} RelaysGrow(log: seq<Event>, log': seq<Event>, targetChainId: nat)
    requires log <= log'
    ensures RelayedTo(log, targetChainId) <= RelayedTo(log', targetChainId)
  {
    if log != log' {
      assert log <= log'[..|log'| - 1];
      RelaysGrow(log, log'[..|log'| - 1], targetChainId);
    }
  }

  lemma RelayedIsListed(s: State, i: nat)
    requires i < |s.log| && s.log[i].RelayedEvent?
    requires Numbered(s)
    ensures var relayed := s.log[i].relayed;
            var relays := RelayedTo(s.log, relayed.targetChainId);
            1 <= relayed.nonce <= |relays| && relays[relayed.nonce - 1] == relayed
  {
    var relayed := s.log[i].relayed;
    var upTo := RelayedTo(s.log[..i + 1], relayed.targetChainId);
    assert s.log[..i + 1][i] == s.log[i];
    assert upTo[|upTo| - 1] == relayed;
    RelaysGrow(s.log[..i + 1], s.log, relayed.targetChainId);
    assert RelayedTo(s.log, relayed.targetChainId)[|upTo| - 1] == relayed;
    assert Consecutive(RelayedTo(s.log, relayed.targetChainId)) by {
      assert NonceFor(s.nonces, relayed.targetChainId) == |RelayedTo(s.log, relayed.targetChainId)|;
    }
  }

  lemma ObservedLasts(w: Setting, net: Net, net': Net, message: RelayEvent)
    requires Observed(w, net, message)
    requires forall c :: c in net.chains ==> c in net'.chains && net.chains[c].log <= net'.chains[c].log
    ensures Observed(w, net', message)
  {
    var i :| IsEntry(net, message.sourceChainId, i) && Reported(w, net, message.sourceChainId, i) == message;
    assert IsEntry(net', message.sourceChainId, i) && Reported(w, net', message.sourceChainId, i) == message;
  }

  lemma AllObservedLast(w: Setting, net: Net, net': Net)
    requires forall v, d :: (v, d) in net.signed && v in w.honest ==> Observed(w, net, d.body)
    requires forall c :: c in net.chains ==> c in net'.chains && net.chains[c].log <= net'.chains[c].log
    ensures forall v, d :: (v, d) in net.signed && v in w.honest ==> Observed(w, net', d.body)
  {
    forall v, d | (v, d) in net.signed && v in w.honest
      ensures Observed(w, net', d.body)
    {
      ObservedLasts(w, net, net', d.body);
    }
  }

  lemma TransactKeepsInvariant(w: Setting, net: Net, chainId: nat, transaction: Action)
    requires Invariant(w, net) && Enabled(w, net, Transact(chainId, transaction))
    ensures Invariant(w, Apply(w, net, Transact(chainId, transaction)))
  {
    var s := net.chains[chainId];
    var s' := ActionEffect(ChainOf(w, chainId), s, transaction);
    assert Books(s, {}) && Vouched(w, chainId, net.signed, s);
    ActionKeepsBooks(ChainOf(w, chainId), s, transaction, {});
    ActionKeepsVouched(w, chainId, net.signed, s, transaction);
    AllObservedLast(w, net, net.(chains := net.chains[chainId := s']));
  }

  lemma SignKeepsInvariant(w: Setting, net: Net, step: Step)
    requires Invariant(w, net) && Enabled(w, net, step) && !step.Transact?
    ensures Invariant(w, Apply(w, net, step))
  {
    var net' := Apply(w, net, step);
    forall c, i | c in net'.chains && 0 <= i < |net'.chains[c].log| && net'.chains[c].log[i].DispatchedEvent?
      ensures HonestlySigned(w, c, net'.signed, net'.chains[c].log[i].message)
    {
      assert HonestlySigned(w, c, net.signed, net.chains[c].log[i].message);
    }
    if step.HonestSign? {
      assert IsEntry(net', step.sourceChainId, step.index);
      assert Observed(w, net', Reported(w, net, step.sourceChainId, step.index));
    }
    forall v, d | (v, d) in net'.signed && v in w.honest
      ensures Observed(w, net', d.body)
    {
      if (v, d) in net.signed {
        ObservedLasts(w, net, net', d.body);
      }
    }
  }

  lemma {:induction false} RunKeepsInvariant(w: Setting, validators: map<nat, set<Address>>, steps: seq<Step>)
    requires forall c :: c in validators ==> Bounded(w, validators[c])
    ensures Invariant(w, Run(w, Start(validators), steps))
  {
    if steps != [] {
      RunKeepsInvariant(w, validators, steps[..|steps| - 1]);
      var before, step := Run(w, Start(validators), steps[..|steps| - 1]), steps[|steps| - 1];
      if Enabled(w, before, step) {
        if step.Transact? {
          TransactKeepsInvariant(w, before, step.chainId, step.transaction);
        } else {
          SignKeepsInvariant(w, before, step);
        }
      }
    }
  }

  /** Whatever is dispatched on a chain is what honest nodes reported of an entry its source relayed, and
      it is dispatched there at most once: in every reachable state of the network. */
  lemma DispatchedWasReported(w: Setting, validators: map<nat, set<Address>>, steps: seq<Step>, chainId: nat, i: nat)
    requires forall c :: c in validators ==> Bounded(w, validators[c])
    requires chainId in Run(w, Start(validators), steps).chains
    requires i < |Run(w, Start(validators), steps).chains[chainId].log|
    requires Run(w, Start(validators), steps).chains[chainId].log[i].DispatchedEvent?
    ensures var net := Run(w, Start(validators), steps);
            var message := net.chains[chainId].log[i].message;
            message.targetChainId == chainId && Observed(w, net, message)
    ensures LoggedOnce(Run(w, Start(validators), steps).chains[chainId].log)
  {
    RunKeepsInvariant(w, validators, steps);
    var net := Run(w, Start(validators), steps);
    assert Vouched(w, chainId, net.signed, net.chains[chainId]);
    var message := net.chains[chainId].log[i].message;
    assert HonestlySigned(w, chainId, net.signed, message);
    var v :| v in w.honest && (v, Digest(message)) in net.signed;
    assert Observed(w, net, Digest(message).body);
    assert Books(net.chains[chainId], {});
  }

  /** The log entry a message claims to stem from. */
  function EntryOf(message: RelayEvent): Event {
    RelayedEvent(Relayed(message.targetChainId, message.target, message.call, message.gasLimit, message.nonce))
  }

  lemma {:induction false} ListedIsLogged(log: seq<Event>, targetChainId: nat, k: nat)
    requires k < |RelayedTo(log, targetChainId)|
    ensures RelayedEvent(RelayedTo(log, targetChainId)[k]) in log
    ensures RelayedTo(log, targetChainId)[k].targetChainId == targetChainId
  {
    var earlier := log[..|log| - 1];
    if k < |RelayedTo(earlier, targetChainId)| {
      ListedIsLogged(earlier, targetChainId, k);
    }
  }

  /** A message is authentic exactly when the very entry it claims is in the log of its source. */
  lemma AuthenticIffLogged(net: Net, message: RelayEvent)
    requires message.sourceChainId in net.chains && Numbered(net.chains[message.sourceChainId])
    ensures Authentic(net, message) <==> EntryOf(message) in net.chains[message.sourceChainId].log
  {
    var s := net.chains[message.sourceChainId];
    if Authentic(net, message) {
      ListedIsLogged(s.log, message.targetChainId, message.nonce - 1);
    }
    if i :| 0 <= i < |s.log| && s.log[i] == EntryOf(message) {
      RelayedIsListed(s, i);
    }
  }

  /** What was reported of an entry is authentic if and only if the corrected entry is itself in the
      log; an entry that no exception touches is. */
  lemma ReportedIsAuthenticIff(w: Setting, net: Net, sourceChainId: nat, index: nat)
    requires IsEntry(net, sourceChainId, index) && Numbered(net.chains[sourceChainId])
    ensures var entry := net.chains[sourceChainId].log[index].relayed;
            && (Authentic(net, Reported(w, net, sourceChainId, index)) <==>
                RelayedEvent(w.corrected(sourceChainId, index, entry)) in net.chains[sourceChainId].log)
            && (w.corrected(sourceChainId, index, entry) == entry ==> Authentic(net, Reported(w, net, sourceChainId, index)))
  {
    var entry := net.chains[sourceChainId].log[index].relayed;
    AuthenticIffLogged(net, Reported(w, net, sourceChainId, index));
    assert EntryOf(Reported(w, net, sourceChainId, index)) == RelayedEvent(w.corrected(sourceChainId, index, entry));
    assert net.chains[sourceChainId].log[index] == RelayedEvent(entry);
  }

  /** Where no exception touches the log of its source, a dispatched message is exactly what the source
      relayed to this chain under this nonce. */
  lemma DispatchedIsRelayed(w: Setting, validators: map<nat, set<Address>>, steps: seq<Step>, chainId: nat, i: nat)
    requires forall c :: c in validators ==> Bounded(w, validators[c])
    requires chainId in Run(w, Start(validators), steps).chains
    requires i < |Run(w, Start(validators), steps).chains[chainId].log|
    requires Run(w, Start(validators), steps).chains[chainId].log[i].DispatchedEvent?
    requires var net := Run(w, Start(validators), steps);
             var source := net.chains[chainId].log[i].message.sourceChainId;
             forall index: nat :: IsEntry(net, source, index) ==>
                                    w.corrected(source, index, net.chains[source].log[index].relayed) == net.chains[source].log[index].relayed
    ensures var net := Run(w, Start(validators), steps);
            net.chains[chainId].log[i].message.targetChainId == chainId && Authentic(net, net.chains[chainId].log[i].message)
  {
    DispatchedWasReported(w, validators, steps, chainId, i);
    RunKeepsInvariant(w, validators, steps);
    var net := Run(w, Start(validators), steps);
    var message := net.chains[chainId].log[i].message;
    var index :| IsEntry(net, message.sourceChainId, index) && Reported(w, net, message.sourceChainId, index) == message;
    assert Books(net.chains[message.sourceChainId], {});
    ReportedIsAuthenticIff(w, net, message.sourceChainId, index);
  }

  // ----- from the node to the gateway

  /** The submission of a dispatch request. */
  function Submission(event: RelayEvent, signatures: seq<Signature>, isContract: bool): Request {
    Request(event.sourceChainId, event.target, event.call, event.gasLimit, event.nonce, signatures, isContract)
  }

  /** What a leader requests, once ordered and submitted, goes through on the event's target chain if
      and only if all its signers are validators there, a quorum, and the event's key was not dispatched
      there before; it is then logged as exactly that event. */
  lemma LeaderRequestGoesThrough(c: BridgeNode.Config, validators: set<Address>, inputs: seq<BridgeNode.Input>, i: nat,
                                 ordered: seq<Signature>, chain: Chain, s: State, isContract: bool, body: Behaviour)
    requires BridgeNode.NeverZero(c.recover)
    requires i < |BridgeNode.Run(c, BridgeNode.Init(validators), inputs).outbox|
    requires var request := BridgeNode.Run(c, BridgeNode.Init(validators), inputs).outbox[i];
             && request.Dispatch? && BridgeNode.IsOrdered(request.signatures, ordered)
             && request.event.targetChainId == chain.id
    requires chain.recover == c.recover && Books(s, {})
    ensures var request := BridgeNode.Run(c, BridgeNode.Init(validators), inputs).outbox[i];
            var event := request.event;
            var (s', ok) := DispatchEffect(chain, s, Submission(event, ordered, isContract), body);
            && (ok <==> && KeyOf(event) !in LoggedKeys(s.log)
                        && request.signatures.Keys <= s.validators && IsSupermajority(s.validators, |request.signatures|))
            && (ok ==> s'.log != [] && s'.log[|s'.log| - 1] == DispatchedEvent(event, isContract && !body.reverts))
  {
    var event := BridgeNode.Run(c, BridgeNode.Init(validators), inputs).outbox[i].event;
    BridgeNode.RequestIsAcceptedIff(c, validators, inputs, i, ordered, s.validators);
    assert MessageOf(chain, Submission(event, ordered, isContract)) == event;
    DispatchGoesThrough(chain, s, Submission(event, ordered, isContract), body);
  }

  /** A gateway gives the first messages to two target chains the same nonce, so their events meet in
      the node. With one validator, whose signature on each is a quorum, a leader that gets both
      requests the first to arrive and never the other; a leader that gets them the other way round
      requests the other. */
  lemma TwoTargetsMeetInTheNode(c: BridgeNode.Config, chain: Chain, sender: Address, here: nat, there: nat,
                                target: Address, call: Bytes, gasLimit: nat, v: Address, sig: Signature, sig': Signature)
    requires c.isLeader && here != there
    requires var event := EventFrom(Relayed(here, target, call, gasLimit, 1), chain.id);
             c.parse(sig).Some? && c.recover(Digest(event), c.parse(sig).value) == Some(v)
    requires var event' := EventFrom(Relayed(there, target, call, gasLimit, 1), chain.id);
             c.parse(sig').Some? && c.recover(Digest(event'), c.parse(sig').value) == Some(v)
    ensures ActionsEffect(chain, Deployed({v}), [SetRegistered(sender, true), CallRelay(sender, here, target, call, gasLimit),
                                                 CallRelay(sender, there, target, call, gasLimit)]).log ==
            [RelayedEvent(Relayed(here, target, call, gasLimit, 1)), RelayedEvent(Relayed(there, target, call, gasLimit, 1))]
    ensures var event := EventFrom(Relayed(here, target, call, gasLimit, 1), chain.id);
            var event' := EventFrom(Relayed(there, target, call, gasLimit, 1), chain.id);
            var first, second := BridgeNode.PeerRelay(event, sig, Some({v})), BridgeNode.PeerRelay(event', sig', Some({v}));
            var s, s' := BridgeNode.Run(c, BridgeNode.Init({v}), [first, second]), BridgeNode.Run(c, BridgeNode.Init({v}), [second, first]);
            && BridgeNode.Vouchers(c, [first, second], event).Keys == BridgeNode.Vouchers(c, [first, second], event').Keys == {v}
            && IsSupermajority({v}, 1)
            && BridgeNode.Requested(s, event) && !BridgeNode.Requested(s, event')
            && !BridgeNode.Requested(s', event) && BridgeNode.Requested(s', event')
  {
    TwoFirstRelays(chain, v, sender, here, there, target, call, gasLimit);
    var event := EventFrom(Relayed(here, target, call, gasLimit, 1), chain.id);
    var event' := EventFrom(Relayed(there, target, call, gasLimit, 1), chain.id);
    OneSignatureEach(c, v, event, sig, event', sig');
    OneSignatureEach(c, v, event', sig', event, sig);
  }

  lemma TwoFirstRelays(chain: Chain, v: Address, sender: Address, here: nat, there: nat, target: Address, call: Bytes,
                       gasLimit: nat)
    requires here != there
    ensures ActionsEffect(chain, Deployed({v}), [SetRegistered(sender, true), CallRelay(sender, here, target, call, gasLimit),
                                                 CallRelay(sender, there, target, call, gasLimit)]).log ==
            [RelayedEvent(Relayed(here, target, call, gasLimit, 1)), RelayedEvent(Relayed(there, target, call, gasLimit, 1))]
  {
    var register, one, two := SetRegistered(sender, true), CallRelay(sender, here, target, call, gasLimit),
                              CallRelay(sender, there, target, call, gasLimit);
    var s := Deployed({v});
    OneMore(chain, s, [], register);
    OneMore(chain, s, [register], one);
    OneMore(chain, s, [register, one], two);
    var s1 := ActionsEffect(chain, s, [register]);
    assert s1 == s.(registered := {sender}) by {
      assert [] + [register] == [register];
    }
    var s2 := ActionsEffect(chain, s, [register, one]);
    assert s2 == ActionEffect(chain, s1, one) by {
      assert [register] + [one] == [register, one];
    }
    assert ActionsEffect(chain, s, [register, one, two]) == ActionEffect(chain, s2, two) by {
      assert [register, one] + [two] == [register, one, two];
    }
  }

  lemma OneMore(chain: Chain, s: State, actions: seq<Action>, action: Action)
    ensures ActionsEffect(chain, s, actions + [action]) == ActionEffect(chain, ActionsEffect(chain, s, actions), action)
  {
    assert (actions + [action])[..|actions|] == actions;
  }

  lemma OneSignatureEach(c: BridgeNode.Config, v: Address, event: RelayEvent, sig: Signature, event': RelayEvent, sig': Signature)
    requires c.isLeader && event != event' && event.nonce == event'.nonce
    requires c.parse(sig).Some? && c.recover(Digest(event), c.parse(sig).value) == Some(v)
    requires c.parse(sig').Some? && c.recover(Digest(event'), c.parse(sig').value) == Some(v)
    ensures var inputs := [BridgeNode.PeerRelay(event, sig, Some({v})), BridgeNode.PeerRelay(event', sig', Some({v}))];
            && BridgeNode.Vouchers(c, inputs, event).Keys == BridgeNode.Vouchers(c, inputs, event').Keys == {v}
            && BridgeNode.Requested(BridgeNode.Run(c, BridgeNode.Init({v}), inputs), event)
            && !BridgeNode.Requested(BridgeNode.Run(c, BridgeNode.Init({v}), inputs), event')
  {
    var inputs := [BridgeNode.PeerRelay(event, sig, Some({v})), BridgeNode.PeerRelay(event', sig', Some({v}))];
    BridgeNode.Arrives(c, [], inputs[0], event);
    BridgeNode.Arrives(c, [], inputs[0], event');
    BridgeNode.Arrives(c, [inputs[0]], inputs[1], event);
    BridgeNode.Arrives(c, [inputs[0]], inputs[1], event');
    assert [] + [inputs[0]] == [inputs[0]] && [inputs[0]] + [inputs[1]] == inputs;
    assert BridgeNode.Handled(c, inputs) == inputs;
    BridgeNode.RequestedIffQuorum(c, {v}, inputs, event);
    BridgeNode.RequestedIffQuorum(c, {v}, inputs, event');
  }
}
