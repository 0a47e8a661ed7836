/** The bridge as one step system of managers, tokens, gateways and validators' nodes. Where deliveries come
    from is decided by the signatures: what is dispatched is what honest nodes make of a logged entry. */
module EndToEnd {
  import opened Base
  import opened Messages
  import opened TokenManager
  import opened TokenBridge
  import opened BridgeCalls
  import opened BridgeLinks
  import Gateways = ChainGateway
  import SignatureValidator
  import Network
  import BridgeNode

  // ----- what honest nodes report

  /** Everything honestly signed is what honest nodes make of an entry in a committed log. */
  ghost predicate Truthful(w: Network.Setting, net: Network.Net) {
    forall v, digest :: (v, digest) in net.signed && v in w.honest ==> Network.Observed(w, net, digest.body)
  }

  ghost predicate IsReportAt(w: Network.Setting, net: Network.Net, message: RelayEvent, i: nat) {
    Network.IsEntry(net, message.sourceChainId, i) && Network.Reported(w, net, message.sourceChainId, i) == message
  }

  /** What a gateway accepts is what honest nodes make of an entry in the committed log of its source. */
  lemma AcceptedIsReported(d: Setup, net: Network.Net, c: nat, g: Gateways.State, request: Gateways.Request) returns (i: nat)
    requires Truthful(d.network, net) && Network.Bounded(d.network, g.validators)
    requires Network.NoneForged(d.network, c, net.signed, request)
    requires SignatureValidator.Accepts(d.network.recover, g.validators,
                                        Digest(Gateways.MessageOf(Network.ChainOf(d.network, c), request)), request.signatures)
    ensures IsReportAt(d.network, net, Gateways.MessageOf(Network.ChainOf(d.network, c), request), i)
  {
    var message := Gateways.MessageOf(Network.ChainOf(d.network, c), request);
    Network.AcceptedIsHonestlySigned(d.network, c, net.signed, g, request);
    var v :| v in d.network.honest && (v, Digest(message)) in net.signed;
    assert Network.Observed(d.network, net, Digest(message).body);
    i :| Network.IsEntry(net, message.sourceChainId, i) && Network.Reported(d.network, net, message.sourceChainId, i) == message;
  }

  // ----- which corrections are harmless

  /** Metadata that is none of the bridge's managers'. */
  ghost predicate OfNoManager(w: World, metadata: CallMetadata) {
    metadata.sourceChainId != 0 && ViewOn(w, metadata.sourceChainId).manager != Some(metadata.sender)
  }

  /** A correction is harmless when it makes an entry that is in the log anyway, no call of `accept`, or one
      with the metadata of no manager. */
  ghost predicate IsHarmless(d: Setup, net: Network.Net, w: World, x: nat, corrected: Relayed)
    requires x in net.chains
  {
    || Gateways.RelayedEvent(corrected) in net.chains[x].log
    || d.abi.decode(corrected.call).None?
    || OfNoManager(w, d.abi.decode(corrected.call).value.metadata)
  }

  ghost predicate Harmless(d: Setup, net: Network.Net, w: World) {
    forall x: nat, i: nat :: Network.IsEntry(net, x, i) ==>
                               IsHarmless(d, net, w, x, d.network.corrected(x, i, net.chains[x].log[i].relayed))
  }

  /** Where no exception is configured, there is nothing to do harm. */
  lemma UncorrectedIsHarmless(d: Setup, net: Network.Net, w: World)
    requires forall x: nat, i: nat, relayed :: d.network.corrected(x, i, relayed) == relayed
    ensures Harmless(d, net, w)
  {
    forall x: nat, i: nat | Network.IsEntry(net, x, i)
      ensures IsHarmless(d, net, w, x, d.network.corrected(x, i, net.chains[x].log[i].relayed))
    {
      assert net.chains[x].log[i] == Gateways.RelayedEvent(net.chains[x].log[i].relayed);
    }
  }

  ghost predicate SameManagers(w: World, w': World) {
    forall x :: ViewOn(w', x).manager == ViewOn(w, x).manager
  }

  ghost predicate NothingForged(w: World, w': World) {
    w'.forged == w.forged && SameManagers(w, w')
  }

  lemma OfNoManagerIsForeign(w: World, metadata: CallMetadata)
    requires Invariant(w) && OfNoManager(w, metadata)
    ensures Foreign(w, metadata)
  {
    assert w.home.chainId in w.remotes ==> RemoteShape(IdOf(w), w.home.chainId, w.remotes[w.home.chainId]);
  }

  // ----- call trees forge nothing

  lemma LeafKeepsManager(d: Setup, c: nat, s: Bridge, op: Op, x: nat)
    requires Ready(s.world) && c in s.gateways && IsLeaf(op)
    ensures ViewOn(LeafOn(d, c, s, op).world, x).manager == ViewOn(s.world, x).manager
  {
    var w := s.world;
    if op.SendTokens? && ParcelOf(w, c, op).Some? {
      TransferViews(w, c, op, x);
    } else if op.TokenCall? {
      QuietStep(w, TokenStep(w, c, op.sender, op.op), x);
    } else if op.CallAccept? {
      DirectAcceptIsRefused(w, c, op.caller, op.metadata, op.args);
    } else if op.SetRegistered? && IsManager(w, c, op.account) {
      EnrollViews(w, c, op.registered, x);
    }
  }

  lemma TryForgesNothing(w: World, step: TokenBridge.Step)
    requires !step.Message?
    ensures Try(w, step).forged == w.forged
  {
  }

  lemma LeafForgesNothing(d: Setup, c: nat, s: Bridge, op: Op)
    requires Ready(s.world) && c in s.gateways && IsLeaf(op)
    ensures NothingForged(s.world, LeafOn(d, c, s, op).world)
  {
    forall x
      ensures ViewOn(LeafOn(d, c, s, op).world, x).manager == ViewOn(s.world, x).manager
    {
      LeafKeepsManager(d, c, s, op, x);
    }
    if op.SendTokens? {
      TryForgesNothing(s.world, TransferStep(s.world, c, op));
    } else if op.TokenCall? {
      TryForgesNothing(s.world, TokenStep(s.world, c, op.sender, op.op));
    } else if op.CallAccept? {
      DirectAcceptIsRefused(s.world, c, op.caller, op.metadata, op.args);
    } else if op.SetRegistered? {
      TryForgesNothing(s.world, Enroll(c, op.registered));
    }
  }

  lemma DeliveryForgesNothing(w: World, x: nat, k: nat, enoughGas: bool)
    requires Ready(w) && Enabled(w, DeliveryStep(w, x, k, enoughGas))
    ensures NothingForged(w, Apply(w, DeliveryStep(w, x, k, enoughGas)))
  {
    DeliveryViews(w, x, k, enoughGas);
    forall y | y != x
      ensures ViewOn(Apply(w, DeliveryStep(w, x, k, enoughGas)), y) == ViewOn(w, y)
    {
      OtherViews(w, x, k, enoughGas, y);
    }
  }

  /** A logged message that is no parcel bears another sender's metadata. */
  lemma LoggedIsForeign(d: Setup, net: Network.Net, s: Bridge, message: RelayEvent, accept: AcceptCall)
    requires Sound(d, s) && Extends(net, s.gateways) && IsNoParcel(net, s, message)
    requires message.sourceChainId in net.chains && Network.EntryOf(message) in net.chains[message.sourceChainId].log
    requires d.abi.decode(message.call) == Some(accept)
    ensures Foreign(s.world, accept.metadata)
  {
    var log := net.chains[message.sourceChainId].log;
    var j: nat :| j < |log| && log[j] == Network.EntryOf(message);
    assert IsMessageAt(net, message, j);
    assert j !in PlacesOn(s.places, message.sourceChainId);
    OtherIsForeign(d, net, s, message, j, accept);
  }

  /** The message is no parcel in the committed log of its source. */
  ghost predicate IsNoParcel(net: Network.Net, s: Bridge, message: RelayEvent) {
    var places := PlacesOn(s.places, message.sourceChainId);
    forall k: nat :: k < |places| ==> !IsMessageAt(net, message, places[k])
  }

  /** What honest nodes make of an entry, if it is no parcel, is refused by the manager: harmless corrections
      take nothing. */
  lemma ReportIsRefused(d: Setup, net: Network.Net, w0: World, c: nat, s: Bridge, message: RelayEvent, i: nat, accept: AcceptCall,
                        enoughGas: bool)
    requires Sound(d, s) && Extends(net, s.gateways) && Harmless(d, net, w0) && SameManagers(w0, s.world)
    requires IsReportAt(d.network, net, message, i) && ParcelIn(net, s.places, message).None?
    requires d.abi.decode(message.call) == Some(accept) && ManagerOn(s.world, c).Some?
    ensures MessageEffect(s.world, Parcel(c, message.target, accept.metadata, accept.args), enoughGas) == s.world
  {
    var x := message.sourceChainId;
    var corrected := d.network.corrected(x, i, net.chains[x].log[i].relayed);
    assert IsHarmless(d, net, w0, x, corrected);
    assert Network.EntryOf(message) == Gateways.RelayedEvent(corrected);
    if Network.EntryOf(message) in net.chains[x].log {
      assert IsNoParcel(net, s, message);
      LoggedIsForeign(d, net, s, message, accept);
    } else {
      OfNoManagerIsForeign(s.world, accept.metadata);
    }
    ForeignIsRefused(s.world, Parcel(c, message.target, accept.metadata, accept.args), enoughGas);
  }

  lemma AcceptForgesNothing(d: Setup, net: Network.Net, w0: World, c: nat, s: Bridge, request: Gateways.Request, i: nat,
                            enoughGas: bool)
    requires RoundTrips(d.abi) && Sound(d, s) && Extends(net, s.gateways) && c in s.gateways
    requires Harmless(d, net, w0) && SameManagers(w0, s.world) && CallsManager(d, c, s.world, request)
    requires (request.sourceChainId, request.nonce) !in s.gateways[c].dispatched
    requires IsReportAt(d.network, net, Gateways.MessageOf(Network.ChainOf(d.network, c), request), i)
    ensures var message := Gateways.MessageOf(Network.ChainOf(d.network, c), request);
            var s' := AcceptOn(net, c, Marked(c, s, request), message, d.abi.decode(request.call).value, enoughGas).0;
            NothingForged(s.world, s'.world)
  {
    var message, accept := Gateways.MessageOf(Network.ChainOf(d.network, c), request), d.abi.decode(request.call).value;
    var k := AcceptDelivers(d, net, c, s, request, enoughGas);
    if k.Some? {
      DeliveryForgesNothing(s.world, request.sourceChainId, k.value, enoughGas);
    } else {
      ReportIsRefused(d, net, w0, c, s, message, i, accept, enoughGas);
    }
  }

  lemma CallForgesNothing(d: Setup, net: Network.Net, w0: World, c: nat, s: Bridge, request: Gateways.Request, i: nat, body: Body)
    requires RoundTrips(d.abi) && Sound(d, s) && Extends(net, s.gateways) && c in s.gateways
    requires Truthful(d.network, net) && Harmless(d, net, w0) && SameManagers(w0, s.world)
    requires AllPossible(d, net.signed, c, body.ops)
    requires (request.sourceChainId, request.nonce) !in s.gateways[c].dispatched
    requires IsReportAt(d.network, net, Gateways.MessageOf(Network.ChainOf(d.network, c), request), i)
    ensures NothingForged(s.world, CallOn(d, net, c, Marked(c, s, request), request, body).0.world)
    decreases body, 2
  {
    if CallsManager(d, c, s.world, request) {
      AcceptForgesNothing(d, net, w0, c, s, request, i, !body.reverts);
    } else {
      MarkKeeps(d, net, c, s, request);
      OpsForgeNothing(d, net, w0, c, Marked(c, s, request), body.ops);
    }
  }

  lemma DispatchForgesNothing(d: Setup, net: Network.Net, w0: World, c: nat, s: Bridge, request: Gateways.Request, body: Body)
    requires RoundTrips(d.abi) && Sound(d, s) && Extends(net, s.gateways) && c in s.gateways
    requires Truthful(d.network, net) && Harmless(d, net, w0) && SameManagers(w0, s.world)
    requires Possible(d, net.signed, c, SubmitDispatch(request, body))
    ensures NothingForged(s.world, DispatchOn(d, net, c, s, request, body).world)
    decreases body, 3
  {
    var g := s.gateways[c];
    var message := Gateways.MessageOf(Network.ChainOf(d.network, c), request);
    if && (request.sourceChainId, request.nonce) !in g.dispatched
       && SignatureValidator.Accepts(d.network.recover, g.validators, Digest(message), request.signatures)
       && request.isContract {
      var i := AcceptedIsReported(d, net, c, g, request);
      CallForgesNothing(d, net, w0, c, s, request, i, body);
    }
  }

  lemma OpsForgeNothing(d: Setup, net: Network.Net, w0: World, c: nat, s: Bridge, ops: seq<Op>)
    requires RoundTrips(d.abi) && Sound(d, s) && Extends(net, s.gateways) && c in s.gateways
    requires Truthful(d.network, net) && Harmless(d, net, w0) && SameManagers(w0, s.world)
    requires AllPossible(d, net.signed, c, ops)
    ensures NothingForged(s.world, OpsOn(d, net, c, s, ops).world)
    decreases ops, 0
  {
    if ops != [] {
      var earlier := ops[..|ops| - 1];
      PrefixPossible(d, net.signed, c, ops);
      OpsKeep(d, net, c, s, earlier);
      OpsForgeNothing(d, net, w0, c, s, earlier);
      OpForgesNothing(d, net, w0, c, OpsOn(d, net, c, s, earlier), ops[|ops| - 1]);
    }
  }

  /** Where corrections are harmless, no call tree takes anything but for a parcel. */
  lemma OpForgesNothing(d: Setup, net: Network.Net, w0: World, c: nat, s: Bridge, op: Op)
    requires RoundTrips(d.abi) && Sound(d, s) && Extends(net, s.gateways) && c in s.gateways
    requires Truthful(d.network, net) && Harmless(d, net, w0) && SameManagers(w0, s.world)
    requires Possible(d, net.signed, c, op)
    ensures NothingForged(s.world, OpOn(d, net, c, s, op).world)
    decreases op, 4
  {
    if op.SubmitDispatch? {
      DispatchForgesNothing(d, net, w0, c, s, op.request, op.body);
    } else if op.Call? {
      OpsForgeNothing(d, net, w0, c, s, op.body.ops);
    } else {
      InvariantIsReady(s.world);
      LeafForgesNothing(d, c, s, op);
    }
  }

  // ----- the whole system

  datatype System = System(net: Network.Net, world: World, places: map<nat, seq<nat>>)

  datatype Event =
    | Transacts(chainId: nat, op: Op)
    | NodeSigns(validator: Address, config: BridgeNode.Config, validators: set<Address>, inputs: seq<BridgeNode.Input>)
    | FaultySigns(validator: Address, digest: Digest)
    | DeploysManager(chainId: nat, manager: Address, gateway: Address, token: Address)
    | RegistersRoute(chainId: nat)

  function BridgeOf(s: System): Bridge {
    Bridge(s.net.chains, s.world, s.places)
  }

  /** The relayed events a node was shown are those honest nodes make of its chain's committed log. */
  ghost predicate ShownTheLog(w: Network.Setting, net: Network.Net, chainId: nat, inputs: seq<BridgeNode.Input>) {
    forall j :: 0 <= j < |inputs| && inputs[j].RelayedSeen? ==> IsShown(w, net, chainId, inputs[j].relayed)
  }

  ghost predicate IsShown(w: Network.Setting, net: Network.Net, chainId: nat, relayed: Relayed) {
    exists i: nat :: Network.IsEntry(net, chainId, i) && relayed == w.corrected(chainId, i, net.chains[chainId].log[i].relayed)
  }

  /** The signatures a node broadcast. */
  function SignedBy(validator: Address, outbox: seq<BridgeNode.Outbound>): set<(Address, Digest)> {
    set i | 0 <= i < |outbox| && outbox[i].Relay? :: (validator, Digest(outbox[i].event))
  }

  /** An address that no entry of the log names as its sender, and that is not registered. */
  ghost predicate IsNewOn(d: Setup, g: Gateways.State, chainId: nat, manager: Address) {
    manager !in g.registered && forall i :: 0 <= i < |g.log| ==> OtherSender(d.abi, g.log[i], chainId, Some(manager))
  }

  ghost predicate Occurs(d: Setup, s: System, event: Event) {
    match event
    case Transacts(chainId, op) => chainId in s.net.chains && Possible(d, s.net.signed, chainId, op)
    case NodeSigns(validator, config, _, inputs) =>
      validator in d.network.honest && ShownTheLog(d.network, s.net, config.chainId, inputs)
    case FaultySigns(validator, _) => validator !in d.network.honest
    case DeploysManager(chainId, manager, gateway, token) =>
      && chainId in s.net.chains && IsNewOn(d, s.net.chains[chainId], chainId, manager)
      && Ready(s.world) && Enabled(s.world, Deploy(chainId, manager, gateway, token))
    case RegistersRoute(chainId) => true
  }

  ghost function After(d: Setup, s: System, event: Event): System
    requires Occurs(d, s, event)
  {
    match event
    case Transacts(chainId, op) =>
      var b := OpOn(d, s.net, chainId, BridgeOf(s), op);
      System(s.net.(chains := b.gateways), b.world, b.places)
    case NodeSigns(validator, config, validators, inputs) =>
      var outbox := BridgeNode.Run(config, BridgeNode.Init(validators), inputs).outbox;
      s.(net := s.net.(signed := s.net.signed + SignedBy(validator, outbox)))
    case FaultySigns(validator, digest) => s.(net := s.net.(signed := s.net.signed + {(validator, digest)}))
    case DeploysManager(chainId, manager, gateway, token) =>
      s.(world := Apply(s.world, Deploy(chainId, manager, gateway, token)))
    case RegistersRoute(chainId) => s.(world := Try(s.world, Register(chainId)))
  }

  /** What cannot occur when it comes up is skipped. */
  ghost function History(d: Setup, s: System, events: seq<Event>): System {
    if events == [] then s
    else
      var before := History(d, s, events[..|events| - 1]);
      if Occurs(d, before, events[|events| - 1]) then After(d, before, events[|events| - 1]) else before
  }

  /** Gateways and the home manager are deployed; nothing is registered, relayed or signed. */
  ghost function Begin(validators: map<nat, set<Address>>, w: World): System {
    System(Network.Start(validators), w, map[])
  }

  ghost predicate CanBegin(d: Setup, validators: map<nat, set<Address>>, w: World) {
    && RoundTrips(d.abi)
    && Initial(w) && !w.home.registered && 0 !in validators
    && forall x :: x in validators ==> Network.Bounded(d.network, validators[x])
  }

  // ----- every history is one of the network

  lemma Extended(w: Network.Setting, start: Network.Net, steps: seq<Network.Step>, step: Network.Step)
    requires Network.Enabled(w, Network.Run(w, start, steps), step)
    ensures Network.Run(w, start, steps + [step]) == Network.Apply(w, Network.Run(w, start, steps), step)
  {
    assert (steps + [step])[..|steps|] == steps;
  }

  /** A node's signatures are honest signatures of the network, one by one. */
  lemma {:induction false} NodeSignsEntries(d: Setup, start: Network.Net, steps: seq<Network.Step>, net: Network.Net,
                                            validator: Address,
                                            config: BridgeNode.Config, validators: set<Address>, inputs: seq<BridgeNode.Input>, n: nat)
    returns (steps': seq<Network.Step>)
    requires net == Network.Run(d.network, start, steps)
    requires validator in d.network.honest && ShownTheLog(d.network, net, config.chainId, inputs)
    requires n <= |BridgeNode.Run(config, BridgeNode.Init(validators), inputs).outbox|
    ensures var outbox := BridgeNode.Run(config, BridgeNode.Init(validators), inputs).outbox;
            Network.Run(d.network, start, steps') == net.(signed := net.signed + SignedBy(validator, outbox[..n]))
  {
    var outbox := BridgeNode.Run(config, BridgeNode.Init(validators), inputs).outbox;
    if n == 0 {
      steps' := steps;
    } else {
      steps' := NodeSignsEntries(d, start, steps, net, validator, config, validators, inputs, n - 1);
      SignedByOneMore(validator, outbox, n - 1);
      if outbox[n - 1].Relay? {
        var k := BridgeNode.EveryMessageHasItsInput(config, validators, inputs, n - 1);
        assert IsShown(d.network, net, config.chainId, inputs[k].relayed);
        var i: nat :| Network.IsEntry(net, config.chainId, i) &&
                      inputs[k].relayed == d.network.corrected(config.chainId, i, net.chains[config.chainId].log[i].relayed);
        Extended(d.network, start, steps', Network.HonestSign(validator, config.chainId, i));
        steps' := steps' + [Network.HonestSign(validator, config.chainId, i)];
      }
    }
  }

  lemma SignedByOneMore(validator: Address, outbox: seq<BridgeNode.Outbound>, n: nat)
    requires n < |outbox|
    ensures SignedBy(validator, outbox[..n + 1]) ==
            SignedBy(validator, outbox[..n]) + if outbox[n].Relay? then {(validator, Digest(outbox[n].event))} else {}
  {
    var more, fewer := outbox[..n + 1], outbox[..n];
    assert forall i :: 0 <= i < n ==> more[i] == fewer[i];
    assert more[n] == outbox[n];
  }

  /** To the gateways and validators, a history of the system is a run of the network. */
  lemma {:induction false} HistoryIsNetworkRun(d: Setup, validators: map<nat, set<Address>>, w: World, events: seq<Event>)
    returns (steps: seq<Network.Step>)
    ensures History(d, Begin(validators, w), events).net == Network.Run(d.network, Network.Start(validators), steps)
  {
    steps := [];
    if events != [] {
      steps := HistoryIsNetworkRun(d, validators, w, events[..|events| - 1]);
      var s, event := History(d, Begin(validators, w), events[..|events| - 1]), events[|events| - 1];
      if Occurs(d, s, event) {
        match event {
          case Transacts(chainId, op) =>
            OpFollows(d, s.net, chainId, BridgeOf(s), op);
            SeenIsPossible(d, s.net, chainId, BridgeOf(s), op);
            Extended(d.network, Network.Start(validators), steps, Network.Transact(chainId, Seen(d, s.net, chainId, BridgeOf(s), op)));
            steps := steps + [Network.Transact(chainId, Seen(d, s.net, chainId, BridgeOf(s), op))];
          case NodeSigns(validator, config, fetched, inputs) =>
            var outbox := BridgeNode.Run(config, BridgeNode.Init(fetched), inputs).outbox;
            steps := NodeSignsEntries(d, Network.Start(validators), steps, s.net, validator, config, fetched, inputs, |outbox|);
            assert outbox[..|outbox|] == outbox;
          case FaultySigns(validator, digest) =>
            Extended(d.network, Network.Start(validators), steps, Network.FaultySign(validator, digest));
            steps := steps + [Network.FaultySign(validator, digest)];
          case _ =>
        }
      }
    }
  }

  // ----- every history keeps the books

  lemma DeployViews(w: World, c: nat, manager: Address, gateway: Address, token: Address, x: nat)
    requires Ready(w) && Enabled(w, Deploy(c, manager, gateway, token))
    ensures ViewOn(Apply(w, Deploy(c, manager, gateway, token)), x) ==
            if x == c then View(Some(manager), false, [], map[]) else ViewOn(w, x)
    ensures ViewOn(w, c) == View(None, false, [], map[])
  {
  }

  lemma DeployKeepsLinks(d: Setup, s: Bridge, c: nat, manager: Address, gateway: Address, token: Address)
    requires Linked(d.abi, s.gateways, s.places, s.world) && c in s.gateways && IsNewOn(d, s.gateways[c], c, manager)
    requires Ready(s.world) && Enabled(s.world, Deploy(c, manager, gateway, token))
    ensures Linked(d.abi, s.gateways, s.places, Apply(s.world, Deploy(c, manager, gateway, token)))
  {
    var w' := Apply(s.world, Deploy(c, manager, gateway, token));
    forall x | x in s.gateways
      ensures LinkedOn(d.abi, s.gateways, x, PlacesOn(s.places, x), ViewOn(w', x))
    {
      assert LinkedOn(d.abi, s.gateways, x, PlacesOn(s.places, x), ViewOn(s.world, x));
      DeployViews(s.world, c, manager, gateway, token, x);
    }
  }

  lemma BeginIsSound(d: Setup, validators: map<nat, set<Address>>, w: World)
    requires CanBegin(d, validators, w)
    ensures Sound(d, BridgeOf(Begin(validators, w)))
  {
    InitialIsSound(w);
  }

  lemma EventKeeps(d: Setup, s: System, event: Event)
    requires Sound(d, BridgeOf(s)) && RoundTrips(d.abi) && Occurs(d, s, event)
    ensures Sound(d, BridgeOf(After(d, s, event)))
  {
    match event {
      case Transacts(chainId, op) => OpKeeps(d, s.net, chainId, BridgeOf(s), op);
      case DeploysManager(chainId, manager, gateway, token) =>
        StepKeeps(s.world, Deploy(chainId, manager, gateway, token));
        DeployKeepsLinks(d, BridgeOf(s), chainId, manager, gateway, token);
      case RegistersRoute(chainId) => TokenCallKeeps(d, BridgeOf(s), Register(chainId));
      case _ =>
    }
  }

  lemma ReachableIsTruthful(d: Setup, validators: map<nat, set<Address>>, w: World, events: seq<Event>)
    requires CanBegin(d, validators, w)
    ensures var s := History(d, Begin(validators, w), events);
            Network.Invariant(d.network, s.net) && Truthful(d.network, s.net)
  {
    var steps := HistoryIsNetworkRun(d, validators, w, events);
    Network.RunKeepsInvariant(d.network, validators, steps);
  }

  /** In every reachable system the books are kept, and managers and gateways agree. */
  lemma {:induction false} HistoryKeeps(d: Setup, validators: map<nat, set<Address>>, w: World, events: seq<Event>)
    requires CanBegin(d, validators, w)
    ensures Sound(d, BridgeOf(History(d, Begin(validators, w), events)))
  {
    if events == [] {
      BeginIsSound(d, validators, w);
    } else {
      var s, event := History(d, Begin(validators, w), events[..|events| - 1]), events[|events| - 1];
      HistoryKeeps(d, validators, w, events[..|events| - 1]);
      if Occurs(d, s, event) {
        EventKeeps(d, s, event);
      }
    }
  }

  /** Whatever corrections are configured: what the home manager holds and what corrected messages took is
      exactly what is bridged out, under way or stuck, plus gifts. */
  lemma EveryHistoryBalances(d: Setup, validators: map<nat, set<Address>>, w: World, events: seq<Event>)
    requires CanBegin(d, validators, w)
    ensures var w' := History(d, Begin(validators, w), events).world;
            w'.token in w'.home.tokens && Locked(w') + w'.forged == Liabilities(w') + w'.donated
  {
    HistoryKeeps(d, validators, w, events);
  }

  lemma OtherEventForgesNothing(d: Setup, s: System, event: Event)
    requires Occurs(d, s, event) && !event.Transacts?
    ensures After(d, s, event).world.forged == s.world.forged
  {
    if event.RegistersRoute? {
      TryForgesNothing(s.world, Register(event.chainId));
    }
  }

  lemma EventForgesNothing(d: Setup, s: System, event: Event)
    requires Sound(d, BridgeOf(s)) && RoundTrips(d.abi) && Truthful(d.network, s.net) && Harmless(d, s.net, s.world)
    requires Occurs(d, s, event)
    ensures After(d, s, event).world.forged == s.world.forged
  {
    if event.Transacts? {
      OpForgesNothing(d, s.net, s.world, event.chainId, BridgeOf(s), event.op);
    } else {
      OtherEventForgesNothing(d, s, event);
    }
  }

  ghost predicate HarmlessThroughout(d: Setup, s: System, events: seq<Event>) {
    forall k :: 0 <= k < |events| ==> Harmless(d, History(d, s, events[..k]).net, History(d, s, events[..k]).world)
  }

  lemma {:induction false} HistoryForgesNothing(d: Setup, validators: map<nat, set<Address>>, w: World, events: seq<Event>)
    requires CanBegin(d, validators, w) && HarmlessThroughout(d, Begin(validators, w), events)
    ensures History(d, Begin(validators, w), events).world.forged == 0
  {
    if events != [] {
      var n := |events| - 1;
      var s := History(d, Begin(validators, w), events[..n]);
      assert HarmlessThroughout(d, Begin(validators, w), events[..n]) by {
        assert forall k :: 0 <= k < n ==> events[..n][..k] == events[..k];
      }
      HistoryForgesNothing(d, validators, w, events[..n]);
      HistoryKeeps(d, validators, w, events[..n]);
      ReachableIsTruthful(d, validators, w, events[..n]);
      if Occurs(d, s, events[n]) {
        EventForgesNothing(d, s, events[n]);
      }
    }
  }

  /** With few enough dishonest validators, whatever they sign, whoever submits what in whatever call
      trees, and whatever else is relayed with metadata: where corrections are harmless, what the home
      manager holds is exactly what is bridged out, under way or stuck, plus gifts. */
  lemma BridgeIsSolvent(d: Setup, validators: map<nat, set<Address>>, w: World, events: seq<Event>)
    requires CanBegin(d, validators, w) && HarmlessThroughout(d, Begin(validators, w), events)
    ensures var w' := History(d, Begin(validators, w), events).world;
            w'.token in w'.home.tokens && w'.forged == 0 && Locked(w') == Liabilities(w') + w'.donated
  {
    EveryHistoryBalances(d, validators, w, events);
    HistoryForgesNothing(d, validators, w, events);
  }

  // ----- what a dispatch to a manager does

  /** The request is fresh, accepted and calls the manager. */
  ghost predicate ReachesManager(d: Setup, c: nat, s: Bridge, request: Gateways.Request) {
    && c in s.gateways && request.isContract && CallsManager(d, c, s.world, request)
    && (request.sourceChainId, request.nonce) !in s.gateways[c].dispatched
    && SignatureValidator.Accepts(d.network.recover, s.gateways[c].validators,
                                  Digest(Gateways.MessageOf(Network.ChainOf(d.network, c), request)), request.signatures)
  }

  /** Exactly which dispatches take something that no parcel brought: those of a message that is no parcel,
      that the manager can pay and whose metadata passes for its counterpart's. */
  lemma DispatchTakesIff(d: Setup, net: Network.Net, c: nat, s: Bridge, request: Gateways.Request, body: Body)
    requires RoundTrips(d.abi) && Sound(d, s) && Extends(net, s.gateways) && ReachesManager(d, c, s, request)
    ensures Ready(s.world)
    ensures var args, metadata := d.abi.decode(request.call).value.args, d.abi.decode(request.call).value.metadata;
            DispatchOn(d, net, c, s, request, body).world.forged > s.world.forged <==>
            && IsNoParcel(net, s, Gateways.MessageOf(Network.ChainOf(d.network, c), request))
            && !body.reverts && args.amount > 0
            && Payable(s.world, args, c) && PassesFor(ManagerOn(s.world, c).value, args.token, metadata)
  {
    InvariantIsReady(s.world);
    var accept := d.abi.decode(request.call).value;
    var k := AcceptDelivers(d, net, c, s, request, !body.reverts);
    DispatchRunsManager(d, net, c, s, request, body);
    if k.Some? {
      DeliveryForgesNothing(s.world, request.sourceChainId, k.value, !body.reverts);
    } else {
      TakesOn(s.world, Parcel(c, request.target, accept.metadata, accept.args), !body.reverts);
    }
  }

  lemma DispatchRunsManager(d: Setup, net: Network.Net, c: nat, s: Bridge, request: Gateways.Request, body: Body)
    requires ReachesManager(d, c, s, request)
    ensures DispatchOn(d, net, c, s, request, body).world ==
            AcceptOn(net, c, Marked(c, s, request), Gateways.MessageOf(Network.ChainOf(d.network, c), request),
                     d.abi.decode(request.call).value, !body.reverts).0.world
  {
  }

  lemma TakesOn(w: World, parcel: Parcel, enoughGas: bool)
    requires Invariant(w) && IsManager(w, parcel.targetChainId, parcel.target)
    ensures Ready(w)
    ensures MessageEffect(w, parcel, enoughGas).forged > w.forged <==>
            && enoughGas && parcel.args.amount > 0 && Payable(w, parcel.args, parcel.targetChainId)
            && PassesFor(ManagerOn(w, parcel.targetChainId).value, parcel.args.token, parcel.metadata)
  {
    MessageTakesIff(w, parcel, enoughGas);
    assert w.home.chainId in w.remotes ==> RemoteShape(IdOf(w), w.home.chainId, w.remotes[w.home.chainId]);
  }

  /** In every reachable system, only messages that a correction made take such amounts: an entry that is in
      the log as the message says takes nothing. */
  lemma OnlyCorrectionsTake(d: Setup, validators: map<nat, set<Address>>, w: World, events: seq<Event>, c: nat,
                            request: Gateways.Request, body: Body) returns (i: nat)
    requires CanBegin(d, validators, w)
    requires var s := History(d, Begin(validators, w), events);
             && ReachesManager(d, c, BridgeOf(s), request) && Possible(d, s.net.signed, c, SubmitDispatch(request, body))
             && DispatchOn(d, s.net, c, BridgeOf(s), request, body).world.forged > s.world.forged
    ensures var net := History(d, Begin(validators, w), events).net;
            var message := Gateways.MessageOf(Network.ChainOf(d.network, c), request);
            && IsReportAt(d.network, net, message, i)
            && Network.EntryOf(message) !in net.chains[message.sourceChainId].log
  {
    HistoryKeeps(d, validators, w, events);
    ReachableIsTruthful(d, validators, w, events);
    var s := History(d, Begin(validators, w), events);
    var b, message, accept := BridgeOf(s), Gateways.MessageOf(Network.ChainOf(d.network, c), request), d.abi.decode(request.call).value;
    i := AcceptedIsReported(d, s.net, c, s.net.chains[c], request);
    DispatchTakesIff(d, s.net, c, b, request, body);
    if Network.EntryOf(message) in s.net.chains[message.sourceChainId].log {
      LoggedIsForeign(d, s.net, b, message, accept);
      ForeignTakesNothing(s.world, Parcel(c, message.target, accept.metadata, accept.args), !body.reverts);
    }
  }

  lemma ForeignTakesNothing(w: World, parcel: Parcel, enoughGas: bool)
    requires Invariant(w) && Foreign(w, parcel.metadata) && IsManager(w, parcel.targetChainId, parcel.target)
    ensures Ready(w)
    ensures !(&& enoughGas && parcel.args.amount > 0 && Payable(w, parcel.args, parcel.targetChainId)
              && PassesFor(ManagerOn(w, parcel.targetChainId).value, parcel.args.token, parcel.metadata))
  {
    TakesOn(w, parcel, enoughGas);
    ForeignIsRefused(w, parcel, enoughGas);
  }

  /** In every reachable system with harmless corrections, a dispatch to a manager pays out or mints only for
      a parcel waiting on the source chain, and then exactly what that parcel says. */
  lemma PaymentAnswersTransfer(d: Setup, validators: map<nat, set<Address>>, w: World, events: seq<Event>, c: nat,
                               request: Gateways.Request, body: Body) returns (k: nat)
    requires CanBegin(d, validators, w)
    requires var s := History(d, Begin(validators, w), events);
             && Harmless(d, s.net, s.world)
             && c in s.net.chains && Possible(d, s.net.signed, c, SubmitDispatch(request, body))
             && CallsManager(d, c, s.world, request)
             && DispatchOn(d, s.net, c, BridgeOf(s), request, body).world != s.world
    ensures var s := History(d, Begin(validators, w), events);
            IsDelivered(d, c, s.world, request, k, !body.reverts, DispatchOn(d, s.net, c, BridgeOf(s), request, body).world)
  {
    HistoryKeeps(d, validators, w, events);
    ReachableIsTruthful(d, validators, w, events);
    var s := History(d, Begin(validators, w), events);
    var b, message, accept := BridgeOf(s), Gateways.MessageOf(Network.ChainOf(d.network, c), request), d.abi.decode(request.call).value;
    var i := AcceptedIsReported(d, s.net, c, s.net.chains[c], request);
    var delivered := AcceptDelivers(d, s.net, c, b, request, !body.reverts);
    if delivered.None? {
      ReportIsRefused(d, s.net, s.world, c, b, message, i, accept, !body.reverts);
    }
    k := delivered.value;
  }

  // ----- from a leader's request to the payment

  lemma ParcelSays(d: Setup, net: Network.Net, s: Bridge, message: RelayEvent, k: nat)
    requires RoundTrips(d.abi) && Sound(d, s) && Extends(net, s.gateways)
    requires k < |PlacesOn(s.places, message.sourceChainId)|
    requires IsMessageAt(net, message, PlacesOn(s.places, message.sourceChainId)[k])
    ensures var v := ViewOn(s.world, message.sourceChainId);
            && k < |v.sent| && message.target == v.sent[k].target
            && d.abi.decode(message.call) == Some(AcceptCall(v.sent[k].metadata, v.sent[k].args))
  {
    var x := message.sourceChainId;
    var places := PlacesOn(s.places, x);
    assert LinkedOn(d.abi, s.gateways, x, places, ViewOn(s.world, x));
    assert s.gateways[x].log[places[k]] == net.chains[x].log[places[k]];
  }

  /** A delivery with enough gas pays unless the recipient is the zero address or the home manager has
      no route to where the parcel came from. */
  lemma DeliverySucceedsIff(w: World, x: nat, k: nat)
    requires Invariant(w) && w.forged <= w.donated && Ready(w) && Enabled(w, DeliveryStep(w, x, k, true))
    ensures k < |ViewOn(w, x).sent|
    ensures k in ViewOn(Apply(w, DeliveryStep(w, x, k, true)), x).status
    ensures ViewOn(Apply(w, DeliveryStep(w, x, k, true)), x).status[k] <==>
            && ViewOn(w, x).sent[k].args.recipient != ZERO_ADDRESS
            && (x != w.home.chainId ==> (w.token, x) in w.home.remoteTokens)
  {
    DeliveryViews(w, x, k, true);
    if x == w.home.chainId {
      MintNeverOverflows(w, k, true);
    } else {
      ReleaseIsFunded(w, x, k, true);
    }
  }

  /** A parcel whose message reaches the manager with enough gas is delivered. */
  lemma ReachingParcelIsDelivered(d: Setup, net: Network.Net, c: nat, s: Bridge, request: Gateways.Request, at: nat, body: Body)
    returns (k: nat)
    requires RoundTrips(d.abi) && Sound(d, s) && Extends(net, s.gateways) && c in s.gateways
    requires request.isContract && !body.reverts && s.world.forged <= s.world.donated
    requires (request.sourceChainId, request.nonce) !in s.gateways[c].dispatched
    requires SignatureValidator.Accepts(d.network.recover, s.gateways[c].validators,
                                        Digest(Gateways.MessageOf(Network.ChainOf(d.network, c), request)), request.signatures)
    requires at < |PlacesOn(s.places, request.sourceChainId)|
    requires IsMessageAt(net, Gateways.MessageOf(Network.ChainOf(d.network, c), request),
                         PlacesOn(s.places, request.sourceChainId)[at])
    ensures IsPaid(d, c, s.world, request, k, DispatchOn(d, net, c, s, request, body).world)
  {
    var message := Gateways.MessageOf(Network.ChainOf(d.network, c), request);
    var x := message.sourceChainId;
    ParcelSays(d, net, s, message, at);
    var sent := ViewOn(s.world, x).sent;
    ParcelArrives(d, net, c, s, message, at, AcceptCall(sent[at].metadata, sent[at].args));
    DeliveryIsStep(s.world, x, at, sent[at], true);
    var delivered := AcceptDelivers(d, net, c, s, request, true);
    k := delivered.value;
    DeliverySucceedsIff(s.world, x, k);
  }

  /** Parcel k, which says what the request says, is delivered, with success exactly when its recipient is
      not zero and the home manager has a route to where it came from. */
  ghost predicate IsPaid(d: Setup, c: nat, w: World, request: Gateways.Request, k: nat, w': World) {
    var x := request.sourceChainId;
    && IsDelivered(d, c, w, request, k, true, w')
    && k in ViewOn(w', x).status
    && (ViewOn(w', x).status[k] <==>
        && ViewOn(w, x).sent[k].args.recipient != ZERO_ADDRESS
        && (x != w.home.chainId ==> (w.token, x) in w.home.remoteTokens))
  }

  /** In every reachable system where forgeries took no more than was given: what a leader's node requests
      for a parcel, submitted with enough gas to the target gateway while its signers are a quorum there and
      its nonce is fresh, delivers that transfer. */
  lemma RequestedParcelIsDelivered(d: Setup, start: map<nat, set<Address>>, w: World, events: seq<Event>, c: nat,
                                   config: BridgeNode.Config, validators: set<Address>, inputs: seq<BridgeNode.Input>,
                                   i: nat, ordered: seq<Signature>, at: nat, body: Body)
    returns (k: nat)
    requires CanBegin(d, start, w) && !body.reverts
    requires BridgeNode.NeverZero(config.recover) && config.recover == d.network.recover
    requires i < |BridgeNode.Run(config, BridgeNode.Init(validators), inputs).outbox|
    requires var s := History(d, Begin(start, w), events);
             var posted := BridgeNode.Run(config, BridgeNode.Init(validators), inputs).outbox[i];
             && s.world.forged <= s.world.donated && c in s.net.chains
             && posted.Dispatch? && BridgeNode.IsOrdered(posted.signatures, ordered) && posted.event.targetChainId == c
             && posted.signatures.Keys <= s.net.chains[c].validators
             && SignatureValidator.IsSupermajority(s.net.chains[c].validators, |posted.signatures|)
             && (posted.event.sourceChainId, posted.event.nonce) !in s.net.chains[c].dispatched
             && at < |PlacesOn(s.places, posted.event.sourceChainId)|
             && IsMessageAt(s.net, posted.event, PlacesOn(s.places, posted.event.sourceChainId)[at])
    ensures var s := History(d, Begin(start, w), events);
            var event := BridgeNode.Run(config, BridgeNode.Init(validators), inputs).outbox[i].event;
            var request := Network.Submission(event, ordered, true);
            IsPaid(d, c, s.world, request, k, DispatchOn(d, s.net, c, BridgeOf(s), request, body).world)
  {
    HistoryKeeps(d, start, w, events);
    var s := History(d, Begin(start, w), events);
    var event := BridgeNode.Run(config, BridgeNode.Init(validators), inputs).outbox[i].event;
    var request := Network.Submission(event, ordered, true);
    BridgeNode.RequestIsAcceptedIff(config, validators, inputs, i, ordered, s.net.chains[c].validators);
    assert Gateways.MessageOf(Network.ChainOf(d.network, c), request) == event;
    k := ReachingParcelIsDelivered(d, s.net, c, BridgeOf(s), request, at, body);
  }
}
