/** The validator's per-chain node: it broadcasts its own signature for each relayed event, collects
    the signatures of its peers and, on the leader, asks for dispatch once it holds a quorum. */
module BridgeNode {
  import opened Base
  import opened Messages
  import opened SignatureValidator

  datatype RelayEventSignatures =
    RelayEventSignatures(event: Option<RelayEvent>, dispatched: bool, signatures: map<Address, Signature>)

  datatype Outbound =
    | Dispatch(event: RelayEvent, signatures: map<Address, Signature>)
    | Dispatched(chainId: nat, nonce: nat)
    | Relay(event: RelayEvent, signature: Signature)

  /** Everything the node reacts to. `fetched` is the answer to the validator set query that
      precedes the handling of a peer's signature; None when that query fails. */
  datatype Input =
    | RelayedSeen(relayed: Relayed)
    | DispatchedSeen(sourceChainId: nat, nonce: nat)
    | DispatchedNotice(nonce: nat)
    | PeerRelay(event: RelayEvent, signature: Signature, fetched: Option<set<Address>>)

  /** `parse` is the way of a received signature through its bytes: None when they are malformed. */
  datatype Config = Config(
    chainId: nat, isLeader: bool, recover: Recover, sign: RelayEvent -> Signature, parse: Signature -> Option<Signature>)

  datatype State = State(
    eventSignatures: map<nat, RelayEventSignatures>,
    relayNonces: set<nat>,
    validators: set<Address>,
    outbox: seq<Outbound>)

  // ----- what each handler does, as functions on the state

  function OnDispatchedNotice(s: State, nonce: nat): State {
    var entry := if nonce in s.eventSignatures
                 then s.eventSignatures[nonce].(dispatched := true)
                 else RelayEventSignatures(None, true, map[]);
    s.(eventSignatures := s.eventSignatures[nonce := entry])
  }

  function OnRelayedSeen(c: Config, s: State, relayed: Relayed): State {
    if relayed.nonce in s.relayNonces then s
    else if relayed.nonce in s.eventSignatures && s.eventSignatures[relayed.nonce].dispatched then s
    else
      var event := EventFrom(relayed, c.chainId);
      s.(relayNonces := s.relayNonces + {relayed.nonce}, outbox := s.outbox + [Relay(event, c.sign(event))])
  }

  function OnDispatchedSeen(s: State, sourceChainId: nat, nonce: nat): State {
    s.(outbox := s.outbox + [Dispatched(sourceChainId, nonce)])
  }

  /** The entry after one more verified signature; None when the signature is turned away. */
  function Collect(s: State, event: RelayEvent, signer: Address, signature: Signature): Option<RelayEventSignatures> {
    if event.nonce !in s.eventSignatures then
      Some(RelayEventSignatures(Some(event), false, map[signer := signature]))
    else
      var entry := s.eventSignatures[event.nonce];
      if entry.event.None? || Digest(entry.event.value) != Digest(event) then None
      else Some(entry.(signatures := entry.signatures[signer := signature]))
  }

  function OnPeerRelay(c: Config, s: State, event: RelayEvent, signature: Signature, fetched: Option<set<Address>>): State {
    if c.parse(signature).None? || fetched.None? then s
    else
      var signature := c.parse(signature).value;
      var s := s.(validators := fetched.value);
      var signer := c.recover(Digest(event), signature);
      if signer.None? || signer.value !in s.validators then s
      else
        var entry := Collect(s, event, signer.value, signature);
        if entry.None? then s
        else
          var request := if c.isLeader && IsSupermajority(s.validators, |entry.value.signatures|)
                         then [Dispatch(event, entry.value.signatures)] else [];
          s.(eventSignatures := s.eventSignatures[event.nonce := entry.value], outbox := s.outbox + request)
  }

  function Step(c: Config, s: State, input: Input): State {
    match input
    case RelayedSeen(relayed) => OnRelayedSeen(c, s, relayed)
    case DispatchedSeen(sourceChainId, nonce) => OnDispatchedSeen(s, sourceChainId, nonce)
    case DispatchedNotice(nonce) => OnDispatchedNotice(s, nonce)
    case PeerRelay(event, signature, fetched) => OnPeerRelay(c, s, event, signature, fetched)
  }

  function Init(validators: set<Address>): State {
    State(map[], {}, validators, [])
  }

  /** Malformed signature bytes or a failed query of the validator set end the node, and with it the
      process: what it collected is gone. */
  predicate Fails(c: Config, input: Input) {
    input.PeerRelay? && (c.parse(input.signature).None? || input.fetched.None?)
  }

  /** The inputs before the first one at which the node ends. */
  function Handled(c: Config, inputs: seq<Input>): (r: seq<Input>)
    ensures r <= inputs
    ensures forall i :: 0 <= i < |r| ==> !Fails(c, r[i])
    ensures r != inputs ==> Fails(c, inputs[|r|])
  {
    if inputs == [] then []
    else
      var earlier := Handled(c, inputs[..|inputs| - 1]);
      if |earlier| == |inputs| - 1 && !Fails(c, inputs[|inputs| - 1]) then inputs else earlier
  }

  /** The node over its inputs, as far as it gets. */
  function Run(c: Config, s: State, inputs: seq<Input>): State {
    if inputs == [] then s
    else
      var before := Run(c, s, inputs[..|inputs| - 1]);
      if Handled(c, inputs) == inputs then Step(c, before, inputs[|inputs| - 1]) else before
  }

  // ----- the node itself

  class Node {
    const config: Config
    var eventSignatures: map<nat, RelayEventSignatures>
    var relayNonces: set<nat>
    var validators: set<Address>
    var outbox: seq<Outbound>

    ghost function View(): State
      reads this
    {
      State(eventSignatures, relayNonces, validators, outbox)
    }

    constructor (config: Config, fetched: set<Address>)
      ensures View() == Init(fetched) && this.config == config
      ensures eventSignatures == map[] && relayNonces == {} && validators == fetched && outbox == []
    {
      this.config := config;
      eventSignatures, relayNonces, validators, outbox := map[], {}, fetched, [];
    }

    method HandleBridgeMessage(input: Input) returns (ok: bool)
      requires input.DispatchedNotice? || input.PeerRelay?
      modifies this
      ensures View() == Step(config, old(View()), input)
      ensures ok <==> !Fails(config, input)
    {
      match input {
        case DispatchedNotice(nonce) =>
          if nonce in eventSignatures {
            eventSignatures := eventSignatures[nonce := eventSignatures[nonce].(dispatched := true)];
          } else {
            eventSignatures := eventSignatures[nonce := RelayEventSignatures(None, true, map[])];
          }
          ok := true;
        case PeerRelay(event, signature, fetched) =>
          ok := HandleRelay(event, signature, fetched);
      }
    }

    method HandleRelayEvent(relayed: Relayed)
      modifies this
      ensures View() == OnRelayedSeen(config, old(View()), relayed)
    {
      if relayed.nonce in relayNonces {
        return;
      }
      if relayed.nonce in eventSignatures && eventSignatures[relayed.nonce].dispatched {
        return;
      }
      var event := EventFrom(relayed, config.chainId);
      relayNonces := relayNonces + {event.nonce};
      outbox := outbox + [Relay(event, config.sign(event))];
    }

    method HandleDispatchEvent(sourceChainId: nat, nonce: nat)
      modifies this
      ensures View() == OnDispatchedSeen(old(View()), sourceChainId, nonce)
    {
      outbox := outbox + [Dispatched(sourceChainId, nonce)];
    }

    method HandleRelay(event: RelayEvent, received: Signature, fetched: Option<set<Address>>) returns (ok: bool)
      modifies this
      ensures View() == OnPeerRelay(config, old(View()), event, received, fetched)
      ensures ok <==> config.parse(received).Some? && fetched.Some?
    {
      var parsed := config.parse(received);
      if parsed.None? {
        return false;
      }
      var signature := parsed.value;
      if fetched.None? {
        return false;
      }
      validators := fetched.value;
      ok := true;
      var signer := config.recover(Digest(event), signature);
      if signer.None? || signer.value !in validators {
        return;
      }
      var entry;
      if event.nonce !in eventSignatures {
        entry := RelayEventSignatures(Some(event), false, map[signer.value := signature]);
      } else {
        entry := eventSignatures[event.nonce];
        if entry.event.None? || Digest(entry.event.value) != Digest(event) {
          return;
        }
        entry := entry.(signatures := entry.signatures[signer.value := signature]);
      }
      eventSignatures := eventSignatures[event.nonce := entry];
      if config.isLeader && IsSupermajority(validators, |entry.signatures|) {
        outbox := outbox + [Dispatch(event, entry.signatures)];
      }
    }

    /** Historic dispatches are replayed before historic relays, unless no block of deployment is
        configured; None is a query that failed. */
    method SyncHistoricEvents(blockDeployed: nat, dispatches: Option<seq<(nat, nat)>>, relays: Option<seq<Relayed>>) returns (ok: bool)
      modifies this
      ensures ok <==> blockDeployed == 0 || (dispatches.Some? && relays.Some?)
      ensures View() == if blockDeployed == 0 || dispatches.None? then old(View())
                        else Run(config, old(View()), DispatchInputs(dispatches.value) +
                                                      if relays.Some? then RelayInputs(relays.value) else [])
    {
      if blockDeployed == 0 {
        return true;
      }
      if dispatches.None? {
        return false;
      }
      ghost var s := View();
      for i := 0 to |dispatches.value|
        invariant View() == Run(config, s, DispatchInputs(dispatches.value[..i]))
      {
        HandleDispatchEvent(dispatches.value[i].0, dispatches.value[i].1);
        assert DispatchInputs(dispatches.value[..i + 1])[..i] == DispatchInputs(dispatches.value[..i]);
      }
      assert dispatches.value[..|dispatches.value|] == dispatches.value;
      if relays.None? {
        assert DispatchInputs(dispatches.value) + [] == DispatchInputs(dispatches.value);
        return false;
      }
      ghost var s' := View();
      for i := 0 to |relays.value|
        invariant View() == Run(config, s', RelayInputs(relays.value[..i]))
      {
        HandleRelayEvent(relays.value[i]);
        assert RelayInputs(relays.value[..i + 1])[..i] == RelayInputs(relays.value[..i]);
      }
      assert relays.value[..|relays.value|] == relays.value;
      RunConcat(config, s, DispatchInputs(dispatches.value), RelayInputs(relays.value));
      ok := true;
    }

    /** Reacts to whatever comes next, until a message cannot be handled. */
    method ListenEvents(inputs: seq<Input>) returns (ok: bool)
      modifies this
      ensures View() == Run(config, old(View()), inputs)
      ensures ok <==> Handled(config, inputs) == inputs
    {
      ghost var s := View();
      for i := 0 to |inputs|
        invariant View() == Run(config, s, inputs[..i])
        invariant Handled(config, inputs[..i]) == inputs[..i]
      {
        assert inputs[..i + 1][..i] == inputs[..i];
        ok := React(inputs[i]);
        if !ok {
          EndsAt(config, s, inputs, i);
          return;
        }
      }
      assert inputs[..|inputs|] == inputs;
      ok := true;
    }

    method React(input: Input) returns (ok: bool)
      modifies this
      ensures View() == Step(config, old(View()), input)
      ensures ok <==> !Fails(config, input)
    {
      ok := true;
      match input {
        case RelayedSeen(relayed) => HandleRelayEvent(relayed);
        case DispatchedSeen(sourceChainId, nonce) => HandleDispatchEvent(sourceChainId, nonce);
        case _ => ok := HandleBridgeMessage(input);
      }
    }
  }

  ghost function DispatchInputs(dispatches: seq<(nat, nat)>): seq<Input> {
    seq(|dispatches|, i requires 0 <= i < |dispatches| => DispatchedSeen(dispatches[i].0, dispatches[i].1))
  }

  ghost function RelayInputs(relays: seq<Relayed>): seq<Input> {
    seq(|relays|, i requires 0 <= i < |relays| => RelayedSeen(relays[i]))
  }

  lemma {:induction false} RunConcat(c: Config, s: State, first: seq<Input>, second: seq<Input>)
    requires Handled(c, first) == first
    ensures Run(c, s, first + second) == Run(c, Run(c, s, first), second)
    ensures Handled(c, first + second) == first + Handled(c, second)
  {
    if second == [] {
      assert first + second == first;
    } else {
      RunConcat(c, s, first, second[..|second| - 1]);
      assert (first + second)[..|first + second| - 1] == first + second[..|second| - 1];
    }
  }

  /** An input that fails leaves the state as it was, and nothing after it is handled. */
  lemma {:induction false} EndsAt(c: Config, s: State, inputs: seq<Input>, i: nat)
    requires i < |inputs| && Handled(c, inputs[..i]) == inputs[..i] && Fails(c, inputs[i])
    ensures Handled(c, inputs) == inputs[..i]
    ensures Run(c, s, inputs) == Run(c, s, inputs[..i])
  {
    var n := |inputs| - 1;
    assert i < n ==> inputs[..n][..i] == inputs[..i];
    if i < n {
      EndsAt(c, s, inputs[..n], i);
    }
  }

  // ----- ordering of the collected signatures

  ghost predicate Ascending(keys: seq<Address>) {
    forall i, j :: 0 <= i < j < |keys| ==> keys[i] < keys[j]
  }

  /** `ordered` lists the collected signatures in ascending order of their signers. */
  ghost predicate OrderedByKeys(signatures: map<Address, Signature>, keys: seq<Address>, ordered: seq<Signature>) {
    && Ascending(keys)
    && Elements(keys) == signatures.Keys
    && |ordered| == |keys|
    && forall i :: 0 <= i < |keys| ==> ordered[i] == signatures[keys[i]]
  }

  ghost predicate IsOrdered(signatures: map<Address, Signature>, ordered: seq<Signature>) {
    exists keys: seq<Address> :: OrderedByKeys(signatures, keys, ordered)
  }

  method IntoOrderedSignatures(signatures: map<Address, Signature>) returns (ordered: seq<Signature>)
    ensures IsOrdered(signatures, ordered)
    ensures |ordered| == |signatures|
  {
    var keys := SortedKeys(signatures.Keys);
    AscendingLength(keys);
    assert forall i :: 0 <= i < |keys| ==> keys[i] in Elements(keys);
    ordered := seq(|keys|, i requires 0 <= i < |keys| => signatures[keys[i]]);
    assert OrderedByKeys(signatures, keys, ordered);
  }

  method SortedKeys(all: set<Address>) returns (keys: seq<Address>)
    ensures Ascending(keys) && Elements(keys) == all
  {
    keys := [];
    var rest := all;
    while rest != {}
      invariant Ascending(keys)
      invariant forall x :: x in all <==> x in rest || x in keys
      invariant forall i, y :: 0 <= i < |keys| && y in rest ==> keys[i] < y
      decreases rest
    {
      var least := Least(rest);
      assert forall x :: x in rest <==> x in rest - {least} || x == least;
      keys := keys + [least];
      rest := rest - {least};
    }
  }

  method Least(s: set<Address>) returns (least: Address)
    requires s != {}
    ensures least in s && forall x :: x in s ==> least <= x
  {
    least :| least in s;
    var rest := s - {least};
    while rest != {}
      invariant rest <= s && least in s
      invariant forall x :: x in s ==> x in rest || least <= x
    {
      var x :| x in rest;
      least := if x < least then x else least;
      rest := rest - {x};
    }
  }

  lemma {:induction false} AscendingLength(keys: seq<Address>)
    requires Ascending(keys)
    ensures |Elements(keys)| == |keys|
  {
    if keys != [] {
      var n := |keys| - 1;
      AscendingLength(keys[..n]);
      assert forall i :: 0 <= i < n ==> keys[..n][i] == keys[i];
      assert Elements(keys) == Elements(keys[..n]) + {keys[n]};
    }
  }

  // ----- agreement with the on-chain check

  /** What the on-chain recovery guarantees: it fails rather than return the zero address. */
  ghost predicate NeverZero(recover: Recover) {
    forall digest, signature :: recover(digest, signature) != Some(ZERO_ADDRESS)
  }

  /** Validator queries that succeed return the same set throughout. */
  ghost predicate Unchanged(validators: set<Address>, inputs: seq<Input>) {
    forall i :: 0 <= i < |inputs| && inputs[i].PeerRelay? ==>
                  inputs[i].fetched.None? || inputs[i].fetched == Some(validators)
  }

  /** Each stored signature is by the validator it is stored under, for the given event. */
  ghost predicate Genuine(c: Config, event: RelayEvent, signatures: map<Address, Signature>) {
    forall a :: a in signatures ==> c.recover(Digest(event), signatures[a]) == Some(a)
  }

  ghost predicate SoundEntry(c: Config, nonce: nat, entry: RelayEventSignatures) {
    match entry.event
    case None => entry.signatures == map[]
    case Some(event) => event.nonce == nonce && Genuine(c, event, entry.signatures)
  }

  /** A request is for the event stored under its nonce, with signatures collected there. */
  ghost predicate SoundRequest(c: Config, entries: map<nat, RelayEventSignatures>, message: Outbound) {
    message.Dispatch? ==>
      && Genuine(c, message.event, message.signatures)
      && message.event.nonce in entries && entries[message.event.nonce].event == Some(message.event)
  }

  ghost predicate Sound(c: Config, s: State) {
    && (forall n :: n in s.eventSignatures ==> SoundEntry(c, n, s.eventSignatures[n]))
    && (forall i :: 0 <= i < |s.outbox| ==> SoundRequest(c, s.eventSignatures, s.outbox[i]))
  }

  lemma StepIsSound(c: Config, s: State, input: Input)
    requires Sound(c, s)
    ensures Sound(c, Step(c, s, input))
  {
    StepPosts(c, s, input);
    var s' := Step(c, s, input);
    forall n | n in s'.eventSignatures
      ensures SoundEntry(c, n, s'.eventSignatures[n])
    {
      assert n in s.eventSignatures ==> SoundEntry(c, n, s.eventSignatures[n]);
    }
    forall i | 0 <= i < |s'.outbox|
      ensures SoundRequest(c, s'.eventSignatures, s'.outbox[i])
    {
      if i < |s.outbox| {
        assert s'.outbox[i] == s.outbox[i] && SoundRequest(c, s.eventSignatures, s.outbox[i]);
      } else if s'.outbox[i].Dispatch? {
        assert SoundEntry(c, input.event.nonce, s'.eventSignatures[input.event.nonce]);
      }
    }
  }

  lemma {:induction false} RunIsSound(c: Config, validators: set<Address>, inputs: seq<Input>)
    ensures Sound(c, Run(c, Init(validators), inputs))
  {
    if inputs != [] {
      RunIsSound(c, validators, inputs[..|inputs| - 1]);
      StepIsSound(c, Run(c, Init(validators), inputs[..|inputs| - 1]), inputs[|inputs| - 1]);
    }
  }

  /** Ordered, genuine signatures recover to their keys in turn. */
  lemma OrderedRecover(c: Config, event: RelayEvent, signatures: map<Address, Signature>, keys: seq<Address>, ordered: seq<Signature>)
    requires NeverZero(c.recover) && Genuine(c, event, signatures) && OrderedByKeys(signatures, keys, ordered)
    ensures |ordered| == |signatures|
    ensures forall i :: 0 <= i < |ordered| ==>
                          c.recover(Digest(event), ordered[i]) == Some(keys[i]) && keys[i] in signatures && keys[i] > ZERO_ADDRESS
  {
    AscendingLength(keys);
    assert |ordered| == |signatures.Keys|;
    forall i | 0 <= i < |ordered|
      ensures c.recover(Digest(event), ordered[i]) == Some(keys[i]) && keys[i] in signatures && keys[i] > ZERO_ADDRESS
    {
      assert keys[i] in Elements(keys);
    }
  }

  /** Genuine signatures, once ordered, pass the contract's check exactly when all their signers are
      validators there and make up a quorum. */
  lemma OrderedIsAcceptedIff(c: Config, current: set<Address>, event: RelayEvent,
                             signatures: map<Address, Signature>, ordered: seq<Signature>)
    requires NeverZero(c.recover) && Genuine(c, event, signatures) && IsOrdered(signatures, ordered)
    ensures Accepts(c.recover, current, Digest(event), ordered) <==>
            signatures.Keys <= current && IsSupermajority(current, |signatures|)
  {
    var keys: seq<Address> :| OrderedByKeys(signatures, keys, ordered);
    OrderedRecover(c, event, signatures, keys, ordered);
    if Accepts(c.recover, current, Digest(event), ordered) {
      forall a | a in signatures.Keys
        ensures a in current
      {
        assert a in Elements(keys);
        var i :| 0 <= i < |keys| && keys[i] == a;
        assert c.recover(Digest(event), ordered[i]).value in current;
      }
    }
  }

  /** Whatever validator sets the node fetched on the way: a request passes the contract's check, on
      whatever set is current there, exactly when every collected signer is in it and they are a quorum. */
  lemma RequestIsAcceptedIff(c: Config, validators: set<Address>, inputs: seq<Input>, i: nat, ordered: seq<Signature>,
                             current: set<Address>)
    requires NeverZero(c.recover)
    requires i < |Run(c, Init(validators), inputs).outbox|
    requires Run(c, Init(validators), inputs).outbox[i].Dispatch?
    requires IsOrdered(Run(c, Init(validators), inputs).outbox[i].signatures, ordered)
    ensures var request := Run(c, Init(validators), inputs).outbox[i];
            Accepts(c.recover, current, Digest(request.event), ordered) <==>
            request.signatures.Keys <= current && IsSupermajority(current, |request.signatures|)
  {
    RunIsSound(c, validators, inputs);
    var s := Run(c, Init(validators), inputs);
    assert SoundRequest(c, s.eventSignatures, s.outbox[i]);
    OrderedIsAcceptedIff(c, current, s.outbox[i].event, s.outbox[i].signatures, ordered);
  }

  /** A request is a quorum of the set the node fetched just before posting it. */
  lemma {:induction false} RequestIsQuorumWhenPosted(c: Config, validators: set<Address>, inputs: seq<Input>, i: nat) returns (k: nat)
    requires i < |Run(c, Init(validators), inputs).outbox|
    requires Run(c, Init(validators), inputs).outbox[i].Dispatch?
    ensures k < |inputs| && inputs[k].PeerRelay? && inputs[k].fetched.Some?
    ensures var request := Run(c, Init(validators), inputs).outbox[i];
            inputs[k].event == request.event && IsSupermajority(inputs[k].fetched.value, |request.signatures|)
  {
    if inputs != [] {
      var earlier := inputs[..|inputs| - 1];
      var s := Run(c, Init(validators), earlier);
      StepPosts(c, s, inputs[|inputs| - 1]);
      if i < |s.outbox| {
        k := RequestIsQuorumWhenPosted(c, validators, earlier, i);
      } else {
        k := |inputs| - 1;
      }
    }
  }

  /** Every signer stored or sent was in the set. */
  ghost predicate Within(validators: set<Address>, s: State) {
    && (forall n :: n in s.eventSignatures ==> s.eventSignatures[n].signatures.Keys <= validators)
    && (forall i :: 0 <= i < |s.outbox| && s.outbox[i].Dispatch? ==> s.outbox[i].signatures.Keys <= validators)
  }

  lemma {:induction false} UnchangedIsWithin(c: Config, validators: set<Address>, inputs: seq<Input>)
    requires Unchanged(validators, inputs)
    ensures Within(validators, Run(c, Init(validators), inputs))
  {
    if inputs != [] {
      var s := Run(c, Init(validators), inputs[..|inputs| - 1]);
      UnchangedIsWithin(c, validators, inputs[..|inputs| - 1]);
      StepPosts(c, s, inputs[|inputs| - 1]);
      var s' := Step(c, s, inputs[|inputs| - 1]);
      assert forall i :: 0 <= i < |s.outbox| ==> s'.outbox[i] == s.outbox[i];
    }
  }

  /** While the validator set does not change, every dispatch request passes the contract's check. */
  lemma EveryRequestIsAccepted(c: Config, validators: set<Address>, inputs: seq<Input>, i: nat, ordered: seq<Signature>)
    requires NeverZero(c.recover) && Unchanged(validators, inputs)
    requires i < |Run(c, Init(validators), inputs).outbox|
    requires Run(c, Init(validators), inputs).outbox[i].Dispatch?
    requires IsOrdered(Run(c, Init(validators), inputs).outbox[i].signatures, ordered)
    ensures Accepts(c.recover, validators, Digest(Run(c, Init(validators), inputs).outbox[i].event), ordered)
  {
    RequestIsAcceptedIff(c, validators, inputs, i, ordered, validators);
    UnchangedIsWithin(c, validators, inputs);
    var k := RequestIsQuorumWhenPosted(c, validators, inputs, i);
  }

  // ----- a signer that left the set

  /** Later requests for a nonce keep the signers stored for it. */
  lemma {:induction false} LaterRequestsKeepSigners(c: Config, s: State, inputs: seq<Input>, i: nat, nonce: nat)
    requires nonce in s.eventSignatures
    requires |s.outbox| <= i < |Run(c, s, inputs).outbox|
    requires Run(c, s, inputs).outbox[i].Dispatch? && Run(c, s, inputs).outbox[i].event.nonce == nonce
    ensures s.eventSignatures[nonce].signatures.Keys <= Run(c, s, inputs).outbox[i].signatures.Keys
  {
    if inputs != [] {
      var earlier := inputs[..|inputs| - 1];
      RunExtends(c, s, earlier);
      StepPosts(c, Run(c, s, earlier), inputs[|inputs| - 1]);
      RunExtends(c, s, inputs);
      if i < |Run(c, s, earlier).outbox| {
        LaterRequestsKeepSigners(c, s, earlier, i, nonce);
      }
    }
  }

  /** The node drops no collected signature. Once it stored one for a nonce, all its later requests for
      that nonce are refused as long as the signer is not in the set, whatever quorum has signed. */
  lemma DepartedSignerBlocks(c: Config, validators: set<Address>, before: seq<Input>, after: seq<Input>, i: nat,
                             ordered: seq<Signature>, signer: Address, current: set<Address>)
    requires NeverZero(c.recover) && Handled(c, before) == before && signer !in current
    requires var s := Run(c, Init(validators), before);
             && |s.outbox| <= i < |Run(c, Init(validators), before + after).outbox|
             && var request := Run(c, Init(validators), before + after).outbox[i];
             && request.Dispatch? && IsOrdered(request.signatures, ordered)
             && request.event.nonce in s.eventSignatures && signer in s.eventSignatures[request.event.nonce].signatures
    ensures !Accepts(c.recover, current, Digest(Run(c, Init(validators), before + after).outbox[i].event), ordered)
  {
    RunConcat(c, Init(validators), before, after);
    var nonce := Run(c, Init(validators), before + after).outbox[i].event.nonce;
    LaterRequestsKeepSigners(c, Run(c, Init(validators), before), after, i, nonce);
    RequestIsAcceptedIff(c, validators, before + after, i, ordered, current);
  }

  /** x signs while the set is {x, z}, which is no quorum; then the set becomes {y}, and y alone is one. The
      leader requests dispatch with both signatures, which the contract refuses, while it would accept
      y's alone. */
  lemma DepartedSignerStarves(c: Config, x: Address, y: Address, z: Address, event: RelayEvent, sig: Signature, sig': Signature,
                              ordered: seq<Signature>)
    requires c.isLeader && NeverZero(c.recover) && x != y && x != z && x != ZERO_ADDRESS && y != ZERO_ADDRESS
    requires c.parse(sig) == Some(sig) && c.recover(Digest(event), sig) == Some(x)
    requires c.parse(sig') == Some(sig') && c.recover(Digest(event), sig') == Some(y)
    requires IsOrdered(map[x := sig, y := sig'], ordered)
    ensures var first, second := PeerRelay(event, sig, Some({x, z})), PeerRelay(event, sig', Some({y}));
            && Run(c, Init({x, z}), [first]).outbox == []
            && Run(c, Init({x, z}), [first, second]).outbox == [Dispatch(event, map[x := sig, y := sig'])]
    ensures !Accepts(c.recover, {y}, Digest(event), ordered)
    ensures Accepts(c.recover, {y}, Digest(event), [sig'])
  {
    VotesPosted(c, x, y, z, event, sig, sig');
    OneTooMany(c, x, y, event, map[x := sig, y := sig'], ordered);
    OneIsEnough(c, y, event, sig');
  }

  lemma VotesPosted(c: Config, x: Address, y: Address, z: Address, event: RelayEvent, sig: Signature, sig': Signature)
    requires c.isLeader && x != y && x != z
    requires c.parse(sig) == Some(sig) && c.recover(Digest(event), sig) == Some(x)
    requires c.parse(sig') == Some(sig') && c.recover(Digest(event), sig') == Some(y)
    ensures var first, second := PeerRelay(event, sig, Some({x, z})), PeerRelay(event, sig', Some({y}));
            && Run(c, Init({x, z}), [first]).outbox == []
            && Run(c, Init({x, z}), [first, second]).outbox == [Dispatch(event, map[x := sig, y := sig'])]
  {
    var first, second := PeerRelay(event, sig, Some({x, z})), PeerRelay(event, sig', Some({y}));
    RunOfTwo(c, Init({x, z}), first, second);
    TwoVotes(c, x, y, z, event, sig, sig');
  }

  lemma OneTooMany(c: Config, x: Address, y: Address, event: RelayEvent, signatures: map<Address, Signature>, ordered: seq<Signature>)
    requires NeverZero(c.recover) && x != y && x in signatures && Genuine(c, event, signatures) && IsOrdered(signatures, ordered)
    ensures !Accepts(c.recover, {y}, Digest(event), ordered)
  {
    OrderedIsAcceptedIff(c, {y}, event, signatures, ordered);
    assert x in signatures.Keys && x !in {y};
  }

  lemma OneIsEnough(c: Config, y: Address, event: RelayEvent, sig: Signature)
    requires y != ZERO_ADDRESS && c.recover(Digest(event), sig) == Some(y)
    ensures Accepts(c.recover, {y}, Digest(event), [sig])
  {
    assert |{y}| == 1;
  }

  lemma RunOfTwo(c: Config, s: State, first: Input, second: Input)
    requires !Fails(c, first) && !Fails(c, second)
    ensures Run(c, s, [first]) == Step(c, s, first)
    ensures Run(c, s, [first, second]) == Step(c, Step(c, s, first), second)
  {
    assert [first][..0] == [] && [first, second][..1] == [first];
    assert Handled(c, [first]) == [first];
    assert Handled(c, [first, second]) == [first, second];
  }

  lemma TwoVotes(c: Config, x: Address, y: Address, z: Address, event: RelayEvent, sig: Signature, sig': Signature)
    requires c.isLeader && x != y && x != z
    requires c.parse(sig) == Some(sig) && c.recover(Digest(event), sig) == Some(x)
    requires c.parse(sig') == Some(sig') && c.recover(Digest(event), sig') == Some(y)
    ensures var s := OnPeerRelay(c, Init({x, z}), event, sig, Some({x, z}));
            && s.outbox == []
            && OnPeerRelay(c, s, event, sig', Some({y})).outbox == [Dispatch(event, map[x := sig, y := sig'])]
  {
    var s := OnPeerRelay(c, Init({x, z}), event, sig, Some({x, z}));
    assert |map[x := sig]| == 1 && |{x, z}| == 2 && |{y}| == 1;
    assert s == State(map[event.nonce := RelayEventSignatures(Some(event), false, map[x := sig])], {}, {x, z}, []);
    var collected := map[x := sig][y := sig'];
    assert collected == map[x := sig, y := sig'] && |collected| == 2;
  }

  // ----- exactly when an event gets dispatched

  /** The validator a peer's message vouches for: the signer, when the message is taken at all. */
  function Voucher(c: Config, input: Input, event: RelayEvent): Option<Address> {
    if input.PeerRelay? && input.event == event && !Fails(c, input) then
      match c.recover(Digest(event), c.parse(input.signature).value)
      case None => None
      case Some(signer) => if signer in input.fetched.value then Some(signer) else None
    else None
  }

  /** The validators whose signature on the event arrived, each with the one that arrived last. */
  ghost function Vouchers(c: Config, inputs: seq<Input>, event: RelayEvent): map<Address, Signature> {
    if inputs == [] then map[]
    else VouchedBy(c, Vouchers(c, inputs[..|inputs| - 1], event), inputs[|inputs| - 1], event)
  }

  ghost function VouchedBy(c: Config, earlier: map<Address, Signature>, input: Input, event: RelayEvent): map<Address, Signature> {
    match Voucher(c, input, event)
    case None => earlier
    case Some(signer) => earlier[signer := c.parse(input.signature).value]
  }

  /** Who takes a nonce: the first validly signed event bearing it, or a dispatched notice. */
  datatype Claim = Unclaimed | ByNotice | ByEvent(event: RelayEvent)

  function FirstClaim(c: Config, inputs: seq<Input>, nonce: nat): Claim {
    if inputs == [] then Unclaimed
    else
      var earlier := FirstClaim(c, inputs[..|inputs| - 1], nonce);
      if earlier != Unclaimed then earlier else ClaimOf(c, inputs[|inputs| - 1], nonce)
  }

  function ClaimOf(c: Config, input: Input, nonce: nat): Claim {
    if input == DispatchedNotice(nonce) then ByNotice
    else if input.PeerRelay? && input.event.nonce == nonce && Voucher(c, input, input.event).Some? then ByEvent(input.event)
    else Unclaimed
  }

  ghost predicate Requested(s: State, event: RelayEvent) {
    exists i :: 0 <= i < |s.outbox| && s.outbox[i].Dispatch? && s.outbox[i].event == event
  }

  /** The entry for an event's nonce mirrors the claim on it and, if the event is the claimant, holds
      exactly its vouchers. */
  ghost predicate Mirrors(s: State, event: RelayEvent, claim: Claim, vouchers: map<Address, Signature>) {
    var entries := s.eventSignatures;
    match claim
    case Unclaimed => event.nonce !in entries && vouchers == map[]
    case ByNotice => event.nonce in entries && entries[event.nonce].event == None
    case ByEvent(claimant) =>
      && event.nonce in entries && claimant.nonce == event.nonce
      && entries[event.nonce].event == Some(claimant)
      && (claimant == event ==> entries[event.nonce].signatures == vouchers)
  }

  lemma StepMirrors(c: Config, s: State, input: Input, event: RelayEvent, claim: Claim, vouchers: map<Address, Signature>)
    requires Mirrors(s, event, claim, vouchers)
    ensures Mirrors(Step(c, s, input), event,
                    if claim != Unclaimed then claim else ClaimOf(c, input, event.nonce),
                    VouchedBy(c, vouchers, input, event))
  {
  }

  /** Whatever validator sets are fetched: an entry belongs to the first claim among the inputs handled,
      and holds exactly the validators whose signatures on that event were among them, with the latest. */
  lemma {:induction false} EntriesMirrorClaims(c: Config, validators: set<Address>, inputs: seq<Input>, event: RelayEvent)
    ensures Mirrors(Run(c, Init(validators), inputs), event,
                    FirstClaim(c, Handled(c, inputs), event.nonce), Vouchers(c, Handled(c, inputs), event))
  {
    if inputs != [] {
      var earlier := inputs[..|inputs| - 1];
      EntriesMirrorClaims(c, validators, earlier, event);
      if Handled(c, inputs) == inputs {
        StepMirrors(c, Run(c, Init(validators), earlier), inputs[|inputs| - 1], event,
                    FirstClaim(c, earlier, event.nonce), Vouchers(c, earlier, event));
      }
    }
  }

  /** With input k an event that holds the claim on its nonce gets a signature, which makes a quorum of
      the validator set fetched with it. */
  ghost predicate CompletesQuorum(c: Config, inputs: seq<Input>, k: nat, event: RelayEvent)
    requires k < |inputs|
  {
    && Voucher(c, inputs[k], event).Some?
    && FirstClaim(c, inputs[..k + 1], event.nonce) == ByEvent(event)
    && IsSupermajority(inputs[k].fetched.value, |Vouchers(c, inputs[..k + 1], event)|)
  }

  ghost predicate Completed(c: Config, inputs: seq<Input>, event: RelayEvent) {
    exists k: nat :: k < |inputs| && CompletesQuorum(c, inputs, k, event)
  }

  /** Whatever validator sets are fetched: a node requests dispatch of an event exactly when it is a leader and
      one of the inputs it handles completes a quorum for it. */
  lemma {:induction false} RequestedIff(c: Config, validators: set<Address>, inputs: seq<Input>, event: RelayEvent)
    ensures Requested(Run(c, Init(validators), inputs), event) <==> c.isLeader && Completed(c, Handled(c, inputs), event)
  {
    if inputs != [] {
      var n := |inputs| - 1;
      var earlier := inputs[..n];
      RequestedIff(c, validators, earlier, event);
      if Handled(c, inputs) == inputs {
        assert Handled(c, earlier) == earlier;
        EntriesMirrorClaims(c, validators, earlier, event);
        RequestedByStep(c, Run(c, Init(validators), earlier), inputs[n], event);
        LastCompletes(c, Run(c, Init(validators), earlier), inputs, event);
        CompletedBefore(c, inputs, event);
      } else {
        assert Handled(c, inputs) == Handled(c, earlier);
      }
    }
  }

  lemma LastCompletes(c: Config, s: State, inputs: seq<Input>, event: RelayEvent)
    requires inputs != []
    requires var earlier := inputs[..|inputs| - 1];
             Mirrors(s, event, FirstClaim(c, earlier, event.nonce), Vouchers(c, earlier, event))
    ensures var n := |inputs| - 1;
            var signer := Voucher(c, inputs[n], event);
            CompletesQuorum(c, inputs, n, event) <==>
            && signer.Some?
            && var entry := Collect(s, event, signer.value, c.parse(inputs[n].signature).value);
               entry.Some? && IsSupermajority(inputs[n].fetched.value, |entry.value.signatures|)
  {
    var n := |inputs| - 1;
    assert inputs[..n + 1] == inputs;
    var signer := Voucher(c, inputs[n], event);
    if signer.Some? {
      var entry := Collect(s, event, signer.value, c.parse(inputs[n].signature).value);
      assert entry.Some? ==> entry.value.signatures == Vouchers(c, inputs, event);
    }
  }

  lemma CompletedBefore(c: Config, inputs: seq<Input>, event: RelayEvent)
    requires inputs != []
    ensures var n := |inputs| - 1;
            Completed(c, inputs, event) <==> Completed(c, inputs[..n], event) || CompletesQuorum(c, inputs, n, event)
  {
    var n := |inputs| - 1;
    forall k: nat | k < n
      ensures CompletesQuorum(c, inputs[..n], k, event) <==> CompletesQuorum(c, inputs, k, event)
    {
      assert inputs[..n][..k + 1] == inputs[..k + 1];
    }
  }

  /** A step requests dispatch exactly when it stores a verified signature that completes a quorum. */
  lemma RequestedByStep(c: Config, s: State, input: Input, event: RelayEvent)
    ensures var signer := Voucher(c, input, event);
            Requested(Step(c, s, input), event) <==>
              || Requested(s, event)
              || (&& c.isLeader && signer.Some?
                  && var entry := Collect(s, event, signer.value, c.parse(input.signature).value);
                  entry.Some? && IsSupermajority(input.fetched.value, |entry.value.signatures|))
    ensures var signer := Voucher(c, input, event);
            signer.Some? ==>
              var entry := Collect(s, event, signer.value, c.parse(input.signature).value);
              entry.Some? ==>
                event.nonce in Step(c, s, input).eventSignatures && Step(c, s, input).eventSignatures[event.nonce] == entry.value
  {
    StepRequests(c, s, input, event);
  }

  /** What a step adds to the outbox; only meaningful when it adds something. */
  function Posted(c: Config, s: State, input: Input): Outbound
    requires Step(c, s, input).outbox != s.outbox
  {
    StepPosts(c, s, input);
    Step(c, s, input).outbox[|s.outbox|]
  }

  /** A step posts at most one message, and only as its kind of input allows. */
  lemma StepPosts(c: Config, s: State, input: Input)
    ensures var s' := Step(c, s, input);
            && s.relayNonces <= s'.relayNonces
            && (s'.outbox != s.outbox ==>
              && |s'.outbox| == |s.outbox| + 1
              && s'.outbox == s.outbox + [s'.outbox[|s.outbox|]]
              && match s'.outbox[|s.outbox|]
                 case Relay(event, _) =>
                   && input.RelayedSeen? && event == EventFrom(input.relayed, c.chainId)
                   && event.nonce !in s.relayNonces && s'.relayNonces == s.relayNonces + {event.nonce}
                   && !IsDispatched(s, event.nonce)
                 case Dispatched(chainId, nonce) => input == DispatchedSeen(chainId, nonce)
                 case Dispatch(event, signatures) =>
                   && input.PeerRelay? && input.event == event && c.isLeader
                   && input.fetched.Some? && IsSupermajority(input.fetched.value, |signatures|)
                   && event.nonce in s'.eventSignatures && s'.eventSignatures[event.nonce].event.Some?
                   && Digest(s'.eventSignatures[event.nonce].event.value) == Digest(event)
                   && s'.eventSignatures[event.nonce].signatures == signatures)
  {
  }

  lemma StepRequests(c: Config, s: State, input: Input, event: RelayEvent)
    ensures Requested(Step(c, s, input), event) <==>
            || Requested(s, event)
            || (&& Step(c, s, input).outbox != s.outbox
                && Posted(c, s, input).Dispatch? && Posted(c, s, input).event == event)
  {
    StepPosts(c, s, input);
    var s' := Step(c, s, input);
    if Requested(s, event) {
      var i :| 0 <= i < |s.outbox| && s.outbox[i].Dispatch? && s.outbox[i].event == event;
      assert s'.outbox[i] == s.outbox[i];
    }
  }

  // ----- while the validator set does not change

  lemma {:induction false} VouchersGrow(c: Config, inputs: seq<Input>, k: nat, event: RelayEvent)
    requires k <= |inputs|
    ensures Vouchers(c, inputs[..k], event).Keys <= Vouchers(c, inputs, event).Keys
    ensures FirstClaim(c, inputs[..k], event.nonce) != Unclaimed ==>
              FirstClaim(c, inputs, event.nonce) == FirstClaim(c, inputs[..k], event.nonce)
  {
    if k < |inputs| {
      VouchersGrow(c, inputs[..|inputs| - 1], k, event);
      assert inputs[..|inputs| - 1][..k] == inputs[..k];
    } else {
      assert inputs[..k] == inputs;
    }
  }

  /** The last voucher of a quorum completes it. */
  lemma {:induction false} QuorumIsCompleted(c: Config, validators: set<Address>, inputs: seq<Input>, event: RelayEvent) returns (k: nat)
    requires Unchanged(validators, inputs)
    requires FirstClaim(c, inputs, event.nonce) == ByEvent(event)
    requires IsSupermajority(validators, |Vouchers(c, inputs, event)|)
    ensures k < |inputs| && CompletesQuorum(c, inputs, k, event)
  {
    var n := |inputs| - 1;
    var earlier := inputs[..n];
    assert inputs[..n + 1] == inputs;
    if Voucher(c, inputs[n], event).Some? {
      k := n;
    } else {
      k := QuorumIsCompleted(c, validators, earlier, event);
      assert earlier[..k + 1] == inputs[..k + 1];
    }
  }

  /** A leader requests dispatch of an event exactly when, among the inputs it handles, the event was
      first to claim its nonce and a quorum of validators vouched for it, in whatever order and however
      often. */
  lemma RequestedIffQuorum(c: Config, validators: set<Address>, inputs: seq<Input>, event: RelayEvent)
    requires Unchanged(validators, inputs)
    ensures Requested(Run(c, Init(validators), inputs), event) <==>
            && c.isLeader
            && FirstClaim(c, Handled(c, inputs), event.nonce) == ByEvent(event)
            && IsSupermajority(validators, |Vouchers(c, Handled(c, inputs), event)|)
  {
    RequestedIff(c, validators, inputs, event);
    var handled := Handled(c, inputs);
    if k: nat :| k < |handled| && CompletesQuorum(c, handled, k, event) {
      VouchersGrow(c, handled, k + 1, event);
      SubsetCardinality(Vouchers(c, handled[..k + 1], event).Keys, Vouchers(c, handled, event).Keys);
    }
    if FirstClaim(c, handled, event.nonce) == ByEvent(event) && IsSupermajority(validators, |Vouchers(c, handled, event)|) {
      var k := QuorumIsCompleted(c, validators, handled, event);
    }
  }

  lemma Arrives(c: Config, inputs: seq<Input>, input: Input, event: RelayEvent)
    ensures Vouchers(c, inputs + [input], event) == VouchedBy(c, Vouchers(c, inputs, event), input, event)
    ensures FirstClaim(c, inputs + [input], event.nonce) ==
            if FirstClaim(c, inputs, event.nonce) != Unclaimed then FirstClaim(c, inputs, event.nonce)
            else ClaimOf(c, input, event.nonce)
    ensures Handled(c, inputs + [input]) ==
            if Handled(c, inputs) == inputs && !Fails(c, input) then inputs + [input] else Handled(c, inputs)
  {
    assert (inputs + [input])[..|inputs|] == inputs;
  }

  lemma VotesAroundFailure(c: Config, x: Address, y: Address, event: RelayEvent, first: Input, failed: Input, second: Input)
    requires Voucher(c, first, event) == Some(x) && Voucher(c, second, event) == Some(y) && Fails(c, failed)
    ensures Vouchers(c, [first, failed, second], event).Keys == Vouchers(c, [first, second], event).Keys == {x, y}
    ensures Vouchers(c, [first], event).Keys == {x} && Vouchers(c, [second], event).Keys == {y}
    ensures FirstClaim(c, [first, failed, second], event.nonce) == FirstClaim(c, [first, second], event.nonce) == ByEvent(event)
    ensures Handled(c, [first, failed, second]) == [first] && Handled(c, [first, second]) == [first, second]
    ensures Handled(c, [second]) == [second]
  {
    Arrives(c, [], first, event);
    Arrives(c, [], second, event);
    assert [] + [first] == [first] && [] + [second] == [second];
    Arrives(c, [first], second, event);
    assert [first] + [second] == [first, second];
    Arrives(c, [first], failed, event);
    assert [first] + [failed] == [first, failed];
    Arrives(c, [first, failed], second, event);
    assert [first, failed] + [second] == [first, failed, second];
  }

  /** A failed query ends the node whatever was collected. A quorum that arrives after it, or partly after
      it at a restarted node, is not requested, although without the failure it would be. */
  lemma FailedQueryLosesQuorum(c: Config, x: Address, y: Address, event: RelayEvent, sig: Signature, sig': Signature,
                               other: RelayEvent, any: Signature)
    requires c.isLeader && x != y
    requires c.parse(sig).Some? && c.recover(Digest(event), c.parse(sig).value) == Some(x)
    requires c.parse(sig').Some? && c.recover(Digest(event), c.parse(sig').value) == Some(y)
    ensures var set2 := {x, y};
            var first, failed, second := PeerRelay(event, sig, Some(set2)), PeerRelay(other, any, None), PeerRelay(event, sig', Some(set2));
            && Unchanged(set2, [first, failed, second]) && IsSupermajority(set2, 2) && !IsSupermajority(set2, 1)
            && Vouchers(c, [first, failed, second], event).Keys == set2
            && FirstClaim(c, [first, failed, second], event.nonce) == ByEvent(event)
            && !Requested(Run(c, Init(set2), [first, failed, second]), event)
            && !Requested(Run(c, Init(set2), [second]), event)
            && Requested(Run(c, Init(set2), [first, second]), event)
  {
    var set2 := {x, y};
    var first, failed, second := PeerRelay(event, sig, Some(set2)), PeerRelay(other, any, None), PeerRelay(event, sig', Some(set2));
    VotesAroundFailure(c, x, y, event, first, failed, second);
    RequestedIffQuorum(c, set2, [first, failed, second], event);
    RequestedIffQuorum(c, set2, [second], event);
    RequestedIffQuorum(c, set2, [first, second], event);
  }

  /** The node tells events apart by nonce alone. Gateways number messages per target chain, so two
      events may share a nonce; then one node's run requests at most one of them, whatever the quorums. */
  lemma SharedNonceStarves(c: Config, validators: set<Address>, inputs: seq<Input>, event: RelayEvent, other: RelayEvent)
    requires event != other && event.nonce == other.nonce
    ensures !(Requested(Run(c, Init(validators), inputs), event) && Requested(Run(c, Init(validators), inputs), other))
  {
    RunIsSound(c, validators, inputs);
    var s := Run(c, Init(validators), inputs);
    assert forall i :: 0 <= i < |s.outbox| ==> SoundRequest(c, s.eventSignatures, s.outbox[i]);
  }

  // ----- what every run keeps, validator changes included

  ghost predicate EntryExtends(entry: RelayEventSignatures, entry': RelayEventSignatures) {
    && entry'.event == entry.event
    && entry.signatures.Keys <= entry'.signatures.Keys
    && (entry.dispatched ==> entry'.dispatched)
  }

  ghost predicate Extends(s: State, s': State) {
    && (forall n :: n in s.eventSignatures ==>
          n in s'.eventSignatures && EntryExtends(s.eventSignatures[n], s'.eventSignatures[n]))
    && s.relayNonces <= s'.relayNonces
    && s.outbox <= s'.outbox
  }

  ghost predicate IsDispatched(s: State, nonce: nat) {
    nonce in s.eventSignatures && s.eventSignatures[nonce].dispatched
  }

  ghost predicate BroadcastsNonce(message: Outbound, nonce: nat) {
    message.Relay? && message.event.nonce == nonce
  }

  lemma {:induction false} RunExtends(c: Config, s: State, inputs: seq<Input>)
    ensures Extends(s, Run(c, s, inputs))
  {
    if inputs != [] {
      RunExtends(c, s, inputs[..|inputs| - 1]);
    }
  }

  /** After its dispatched notice a nonce is never broadcast again. */
  lemma {:induction false} NoBroadcastAfterDispatch(c: Config, s: State, inputs: seq<Input>, nonce: nat, i: nat)
    requires IsDispatched(s, nonce)
    requires |s.outbox| <= i < |Run(c, s, inputs).outbox|
    ensures !BroadcastsNonce(Run(c, s, inputs).outbox[i], nonce)
  {
    if inputs != [] {
      var before := Run(c, s, inputs[..|inputs| - 1]);
      RunExtends(c, s, inputs[..|inputs| - 1]);
      if i < |before.outbox| {
        NoBroadcastAfterDispatch(c, s, inputs[..|inputs| - 1], nonce, i);
      }
    }
  }

  /** Only remembered nonces have been broadcast, and none of them twice. */
  ghost predicate BroadcastOnce(s: State) {
    && (forall i :: 0 <= i < |s.outbox| && s.outbox[i].Relay? ==> s.outbox[i].event.nonce in s.relayNonces)
    && (forall i, j :: 0 <= i < j < |s.outbox| && s.outbox[i].Relay? && s.outbox[j].Relay? ==>
          s.outbox[i].event.nonce != s.outbox[j].event.nonce)
  }

  lemma {:induction false} BroadcastAtMostOnce(c: Config, validators: set<Address>, inputs: seq<Input>)
    ensures BroadcastOnce(Run(c, Init(validators), inputs))
  {
    if inputs == [] {
      assert Run(c, Init(validators), inputs).outbox == [];
    } else {
      BroadcastAtMostOnce(c, validators, inputs[..|inputs| - 1]);
      var s, input := Run(c, Init(validators), inputs[..|inputs| - 1]), inputs[|inputs| - 1];
      StepPosts(c, s, input);
      var s' := Step(c, s, input);
      forall i | 0 <= i < |s.outbox|
        ensures s'.outbox[i] == s.outbox[i]
      {
      }
    }
  }

  /** The node signs nothing but events it saw relayed on its own chain, forwards no notices but of
      dispatches it saw there, and requests nothing but events a peer sent. */
  lemma {:induction false} EveryMessageHasItsInput(c: Config, validators: set<Address>, inputs: seq<Input>, i: nat)
    returns (k: nat)
    requires i < |Run(c, Init(validators), inputs).outbox|
    ensures k < |inputs|
    ensures match Run(c, Init(validators), inputs).outbox[i]
            case Relay(event, signature) =>
              && inputs[k].RelayedSeen? && event == EventFrom(inputs[k].relayed, c.chainId) && signature == c.sign(event)
            case Dispatched(chainId, nonce) => inputs[k] == DispatchedSeen(chainId, nonce)
            case Dispatch(event, _) => inputs[k].PeerRelay? && inputs[k].event == event
  {
    if inputs != [] {
      var earlier := inputs[..|inputs| - 1];
      var s := Run(c, Init(validators), earlier);
      StepPosts(c, s, inputs[|inputs| - 1]);
      if i < |s.outbox| {
        k := EveryMessageHasItsInput(c, validators, earlier, i);
      } else {
        k := |inputs| - 1;
      }
    }
  }

  // ----- exactly what is broadcast and forwarded

  /** A nonce is marked dispatched exactly when a notice of it was handled. */
  lemma {:induction false} MarkedIffNotified(c: Config, validators: set<Address>, inputs: seq<Input>, nonce: nat)
    ensures IsDispatched(Run(c, Init(validators), inputs), nonce) <==> DispatchedNotice(nonce) in Handled(c, inputs)
  {
    if inputs != [] {
      MarkedIffNotified(c, validators, inputs[..|inputs| - 1], nonce);
      HandledGrows(c, inputs);
    }
  }

  lemma HandledGrows(c: Config, inputs: seq<Input>)
    requires inputs != []
    ensures var earlier := inputs[..|inputs| - 1];
            Handled(c, inputs) == if Handled(c, inputs) == inputs then Handled(c, earlier) + [inputs[|inputs| - 1]] else Handled(c, earlier)
    ensures Handled(c, inputs) == inputs ==> Handled(c, inputs[..|inputs| - 1]) == inputs[..|inputs| - 1]
  {
  }

  /** Input k is a relayed event with the nonce and no dispatched notice of it came before. */
  predicate Unnoticed(inputs: seq<Input>, k: nat, nonce: nat)
    requires k < |inputs|
  {
    inputs[k].RelayedSeen? && inputs[k].relayed.nonce == nonce && DispatchedNotice(nonce) !in inputs[..k]
  }

  /** The first such input. */
  function FirstUnnoticed(inputs: seq<Input>, nonce: nat): (r: Option<Relayed>)
    ensures r.None? ==> forall k: nat :: k < |inputs| ==> !Unnoticed(inputs, k, nonce)
    ensures r.Some? ==> exists k: nat :: k < |inputs| && Unnoticed(inputs, k, nonce) && inputs[k].relayed == r.value
                                         && forall j: nat :: j < k ==> !Unnoticed(inputs, j, nonce)
  {
    if inputs == [] then None
    else
      var n := |inputs| - 1;
      var earlier := FirstUnnoticed(inputs[..n], nonce);
      assert forall k: nat :: k < n ==> inputs[..n][..k] == inputs[..k];
      assert forall k: nat :: k < n ==> (Unnoticed(inputs[..n], k, nonce) <==> Unnoticed(inputs, k, nonce));
      if earlier.Some? then earlier
      else if Unnoticed(inputs, n, nonce) then Some(inputs[n].relayed) else None
  }

  /** What the node broadcast under a nonce. */
  ghost predicate Broadcasts(s: State, message: Outbound) {
    message.Relay? && message in s.outbox
  }

  /** A node broadcasts under a nonce exactly when it handles a relayed event with it before any dispatched
      notice of it, and then its own signature on the first such event, as of its chain. */
  lemma {:induction false} BroadcastsIff(c: Config, validators: set<Address>, inputs: seq<Input>, message: Outbound)
    requires message.Relay?
    ensures var first := FirstUnnoticed(Handled(c, inputs), message.event.nonce);
            && (Broadcasts(Run(c, Init(validators), inputs), message) <==>
                && first.Some? && message.event == EventFrom(first.value, c.chainId)
                && message.signature == c.sign(message.event))
            && (message.event.nonce in Run(c, Init(validators), inputs).relayNonces <==> first.Some?)
  {
    if inputs != [] {
      var n := |inputs| - 1;
      var s := Run(c, Init(validators), inputs[..n]);
      BroadcastsIff(c, validators, inputs[..n], message);
      HandledGrows(c, inputs);
      if Handled(c, inputs) == inputs {
        MarkedIffNotified(c, validators, inputs[..n], message.event.nonce);
        BroadcastByStep(c, s, inputs[n], message);
      }
    }
  }

  lemma BroadcastByStep(c: Config, s: State, input: Input, message: Outbound)
    requires message.Relay?
    ensures var nonce := message.event.nonce;
            var sent := input.RelayedSeen? && input.relayed.nonce == nonce && nonce !in s.relayNonces && !IsDispatched(s, nonce);
            && (Broadcasts(Step(c, s, input), message) <==>
                || Broadcasts(s, message)
                || (sent && message == Relay(EventFrom(input.relayed, c.chainId), c.sign(EventFrom(input.relayed, c.chainId)))))
            && (nonce in Step(c, s, input).relayNonces <==> nonce in s.relayNonces || sent)
  {
    StepPosts(c, s, input);
    var s' := Step(c, s, input);
    if s'.outbox != s.outbox {
      assert s'.outbox[|s.outbox|] in s'.outbox;
      assert message in s'.outbox <==> message in s.outbox || message == s'.outbox[|s.outbox|];
    }
  }

  /** The notices among what was sent, and the dispatches among what was seen. */
  function NoticesSent(outbox: seq<Outbound>): seq<(nat, nat)> {
    if outbox == [] then []
    else
      var last := outbox[|outbox| - 1];
      NoticesSent(outbox[..|outbox| - 1]) + if last.Dispatched? then [(last.chainId, last.nonce)] else []
  }

  function DispatchesSeen(inputs: seq<Input>): seq<(nat, nat)> {
    if inputs == [] then []
    else
      var last := inputs[|inputs| - 1];
      DispatchesSeen(inputs[..|inputs| - 1]) + if last.DispatchedSeen? then [(last.sourceChainId, last.nonce)] else []
  }

  /** The node forwards notice of every dispatch it sees, in order and nothing else. */
  lemma {:induction false} ForwardsEveryDispatch(c: Config, validators: set<Address>, inputs: seq<Input>)
    ensures NoticesSent(Run(c, Init(validators), inputs).outbox) == DispatchesSeen(Handled(c, inputs))
  {
    if inputs != [] {
      var n := |inputs| - 1;
      var s := Run(c, Init(validators), inputs[..n]);
      ForwardsEveryDispatch(c, validators, inputs[..n]);
      HandledGrows(c, inputs);
      if Handled(c, inputs) == inputs {
        StepPosts(c, s, inputs[n]);
        var s' := Step(c, s, inputs[n]);
        assert s'.outbox != s.outbox ==> s'.outbox[..|s.outbox|] == s.outbox;
      }
    }
  }

  /** A request carries everything collected for its event when it is posted. */
  lemma {:induction false} RequestsCarryAll(c: Config, validators: set<Address>, inputs: seq<Input>, i: nat) returns (k: nat)
    requires i < |Run(c, Init(validators), inputs).outbox|
    requires Run(c, Init(validators), inputs).outbox[i].Dispatch?
    ensures k < |Handled(c, inputs)|
    ensures var request := Run(c, Init(validators), inputs).outbox[i];
            && CompletesQuorum(c, Handled(c, inputs), k, request.event)
            && request.signatures == Vouchers(c, Handled(c, inputs)[..k + 1], request.event)
  {
    if inputs != [] {
      var n := |inputs| - 1;
      var earlier := inputs[..n];
      var s, s' := Run(c, Init(validators), earlier), Run(c, Init(validators), inputs);
      HandledGrows(c, inputs);
      StepPosts(c, s, inputs[n]);
      if i < |s.outbox| {
        k := RequestsCarryAll(c, validators, earlier, i);
        assert Handled(c, earlier)[..k + 1] == Handled(c, inputs)[..k + 1];
      } else {
        k := n;
        assert inputs[..n + 1] == inputs;
        RequestCarriesAll(c, validators, inputs, s'.outbox[i].event);
      }
    }
  }

  lemma RequestCarriesAll(c: Config, validators: set<Address>, inputs: seq<Input>, event: RelayEvent)
    requires inputs != [] && Handled(c, inputs) == inputs
    requires var s, s' := Run(c, Init(validators), inputs[..|inputs| - 1]), Run(c, Init(validators), inputs);
             s'.outbox != s.outbox && s'.outbox[|s.outbox|].Dispatch? && s'.outbox[|s.outbox|].event == event
    ensures CompletesQuorum(c, inputs, |inputs| - 1, event)
    ensures var s, s' := Run(c, Init(validators), inputs[..|inputs| - 1]), Run(c, Init(validators), inputs);
            s'.outbox[|s.outbox|].signatures == Vouchers(c, inputs, event)
  {
    var n := |inputs| - 1;
    var s := Run(c, Init(validators), inputs[..n]);
    StepPosts(c, s, inputs[n]);
    HandledGrows(c, inputs);
    EntriesMirrorClaims(c, validators, inputs[..n], event);
    EntriesMirrorClaims(c, validators, inputs, event);
    assert inputs[..n + 1] == inputs;
    RunIsSound(c, validators, inputs);
    assert SoundRequest(c, Run(c, Init(validators), inputs).eventSignatures, Run(c, Init(validators), inputs).outbox[|s.outbox|]);
  }
}
