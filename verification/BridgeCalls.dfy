/** What call trees do to a chain's gateway, manager and tokens together. A delivery is what the manager
    does when its gateway calls it; nothing here says that it answers a transfer. */
module BridgeCalls {
  import opened Base
  import opened Messages
  import opened TokenManager
  import opened TokenBridge
  import Gateways = ChainGateway
  import SignatureValidator
  import Network

  datatype AcceptCall = AcceptCall(metadata: CallMetadata, args: AcceptArgs)

  /** The encoding of calls of `accept`; other calls do not decode. */
  datatype Abi = Abi(encode: AcceptCall -> Bytes, decode: Bytes -> Option<AcceptCall>)

  datatype Setup = Setup(network: Network.Setting, abi: Abi)

  /** What a call does on one chain. A call of `accept` by the gateway runs the manager there; any other
      call runs the operations of its body. */
  datatype Op =
    | Relay(sender: Address, targetChainId: nat, target: Address, call: Bytes, gasLimit: nat)
    | RelayAccept(sender: Address, targetChainId: nat, target: Address, args: AcceptArgs, gasLimit: nat)
    | SendTokens(sender: Address, token: Address, remoteChainId: nat, recipient: Address, amount: nat)
    | TokenCall(sender: Address, op: UserOp)
    | CallAccept(caller: Address, metadata: CallMetadata, args: AcceptArgs)
    | SubmitDispatch(request: Gateways.Request, body: Body)
    | Call(body: Body)
    | SetRegistered(account: Address, registered: bool)
    | SetValidators(validators: set<Address>)

  datatype Body = Body(ops: seq<Op>, reverts: bool)

  /** `places` tells of each chain where its manager's parcels are in the gateway's log. */
  datatype Bridge = Bridge(gateways: map<nat, Gateways.State>, world: World, places: map<nat, seq<nat>>)

  const GAS_LIMIT: nat := 1_000_000

  const NOTHING: Gateways.Action := Gateways.CallOther(Gateways.Behaviour([], false))

  function ManagerOn(w: World, chainId: nat): Option<State> {
    if chainId == w.home.chainId then Some(w.home)
    else if chainId in w.remotes then Some(w.remotes[chainId].manager) else None
  }

  predicate IsManager(w: World, chainId: nat, account: Address) {
    ManagerOn(w, chainId).Some? && ManagerOn(w, chainId).value.self == account
  }

  function PlacesOn(places: map<nat, seq<nat>>, chainId: nat): seq<nat> {
    if chainId in places then places[chainId] else []
  }

  // ----- what operations do

  /** A step of the token bridge, where it applies. */
  ghost function Try(w: World, step: TokenBridge.Step): World {
    if Ready(w) && Enabled(w, step) then Apply(w, step) else w
  }

  /** The gateway relays a message for a sender; managers relay only from their own `transfer`. */
  ghost function RelayOn(c: nat, s: Bridge, sender: Address, targetChainId: nat, target: Address, call: Bytes,
                         gasLimit: nat): (r: Bridge)
    requires c in s.gateways
    ensures r.gateways.Keys == s.gateways.Keys
  {
    if IsManager(s.world, c, sender) then s
    else s.(gateways := s.gateways[c := Gateways.RelayEffect(s.gateways[c], sender, targetChainId, target, call, gasLimit).0])
  }

  function TransferStep(w: World, c: nat, op: Op): TokenBridge.Step
    requires op.SendTokens?
  {
    if c == w.home.chainId then Lock(op.sender, op.token, op.remoteChainId, op.recipient, op.amount)
    else Burn(c, op.sender, op.token, op.remoteChainId, op.recipient, op.amount)
  }

  /** The parcel that a transfer relays, if it does not revert before. */
  ghost function ParcelOf(w: World, c: nat, op: Op): Option<Parcel>
    requires op.SendTokens?
  {
    var m := ManagerOn(w, c);
    if m.None? || !Ready(w) || !Enabled(w, TransferStep(w, c, op)) then None
    else if TransferEffect(m.value, op.sender, op.token, op.remoteChainId, op.recipient, op.amount).None? then None
    else Some(ParcelFor(m.value, op.token, op.remoteChainId, op.recipient, op.amount))
  }

  function CallOf(abi: Abi, parcel: Parcel): Bytes {
    abi.encode(AcceptCall(parcel.metadata, parcel.args))
  }

  /** The payment and the relaying take effect together or not at all. */
  ghost function SendOn(d: Setup, c: nat, s: Bridge, op: Op): (r: Bridge)
    requires c in s.gateways && op.SendTokens?
    ensures r.gateways.Keys == s.gateways.Keys
  {
    var parcel := ParcelOf(s.world, c, op);
    if parcel.None? then s
    else
      var p := parcel.value;
      var (g, ok) := Gateways.RelayEffect(s.gateways[c], ManagerOn(s.world, c).value.self, p.targetChainId, p.target,
                                          CallOf(d.abi, p), GAS_LIMIT);
      if !ok then s
      else Bridge(s.gateways[c := g], Try(s.world, TransferStep(s.world, c, op)),
                  s.places[c := PlacesOn(s.places, c) + [|s.gateways[c].log|]])
  }

  /** Which parcel of the source's manager a message is, going by the committed log of the source. */
  ghost function ParcelIn(net: Network.Net, places: map<nat, seq<nat>>, message: RelayEvent): Option<nat> {
    if k: nat :| k < |PlacesOn(places, message.sourceChainId)| &&
                 IsMessageAt(net, message, PlacesOn(places, message.sourceChainId)[k])
    then Some(k) else None
  }

  ghost predicate IsMessageAt(net: Network.Net, message: RelayEvent, index: nat) {
    && Network.IsEntry(net, message.sourceChainId, index)
    && EventFrom(net.chains[message.sourceChainId].log[index].relayed, message.sourceChainId) == message
  }

  /** The gateway calls the manager, which does as told by the message alone. Only `status`, `donated` and
      `forged`, which no contract keeps, note which parcel it was, or that it was none. */
  ghost function AcceptOn(net: Network.Net, c: nat, s: Bridge, message: RelayEvent, accept: AcceptCall,
                          enoughGas: bool): (r: (Bridge, bool))
    requires ManagerOn(s.world, c).Some?
    ensures r.0.gateways.Keys == s.gateways.Keys
  {
    var parcel := Parcel(c, message.target, accept.metadata, accept.args);
    var after := Delivery(ManagerOn(s.world, c).value, parcel, enoughGas);
    var paid := PaidBy(s.world, c, after, accept.args);
    var k := ParcelIn(net, s.places, message);
    (s.(world := if k.Some? then Noted(paid, message.sourceChainId, k.value, after.Some?)
                 else MessageEffect(s.world, parcel, enoughGas)), after.Some?)
  }

  function Replaced(w: World, c: nat, after: State, args: AcceptArgs): World
    requires ManagerOn(w, c).Some?
  {
    if c == w.home.chainId
    then w.(home := after, donated := w.donated + if args.recipient == w.home.self then args.amount else 0)
    else w.(remotes := w.remotes[c := w.remotes[c].(manager := after)])
  }

  /** Somebody calls the manager's `accept` directly; a gateway calls it only to dispatch. */
  function AcceptBy(w: World, c: nat, caller: Address, metadata: CallMetadata, args: AcceptArgs): World {
    var m := ManagerOn(w, c);
    if m.None? || caller == m.value.gateway then w
    else PaidBy(w, c, AcceptEffect(m.value, caller, metadata, args), args)
  }

  function PaidBy(w: World, c: nat, after: Option<State>, args: AcceptArgs): World
    requires ManagerOn(w, c).Some?
  {
    if after.None? then w else Replaced(w, c, after.value, args)
  }

  /** No account but the gateway gets anything out of a manager by calling `accept`. */
  lemma DirectAcceptIsRefused(w: World, c: nat, caller: Address, metadata: CallMetadata, args: AcceptArgs)
    ensures AcceptBy(w, c, caller, metadata, args) == w
  {
    if ManagerOn(w, c).Some? {
      AcceptPaysIff(ManagerOn(w, c).value, caller, metadata, args);
    }
  }

  function Noted(w: World, source: nat, k: nat, success: bool): World {
    if source == w.home.chainId then w.(status := w.status[k := success])
    else if source in w.remotes
    then w.(remotes := w.remotes[source := w.remotes[source].(status := w.remotes[source].status[k := success])])
    else w
  }

  ghost function DispatchOn(d: Setup, net: Network.Net, c: nat, s: Bridge, request: Gateways.Request, body: Body): (r: Bridge)
    requires c in s.gateways
    ensures r.gateways.Keys == s.gateways.Keys
    decreases body, 3
  {
    var chain, g := Network.ChainOf(d.network, c), s.gateways[c];
    var message := Gateways.MessageOf(chain, request);
    if (request.sourceChainId, request.nonce) in g.dispatched then s
    else if !SignatureValidator.Accepts(d.network.recover, g.validators, Digest(message), request.signatures) then s
    else
      var marked := Marked(c, s, request);
      var (after, success) := if request.isContract then CallOn(d, net, c, marked, request, body) else (marked, false);
      after.(gateways := after.gateways[c := Logged(after.gateways[c], Gateways.DispatchedEvent(message, success))])
  }

  function Logged(g: Gateways.State, event: Gateways.Event): Gateways.State {
    g.(log := g.log + [event])
  }

  function RegistrationOf(g: Gateways.State, account: Address, registered: bool): Gateways.State {
    g.(registered := if registered then g.registered + {account} else g.registered - {account})
  }

  /** The gateway's owner registers or unregisters a sender, which may be the manager. */
  ghost function RegisterOn(c: nat, s: Bridge, account: Address, registered: bool): (r: Bridge)
    requires c in s.gateways
    ensures r.gateways.Keys == s.gateways.Keys
  {
    s.(gateways := s.gateways[c := RegistrationOf(s.gateways[c], account, registered)],
       world := if IsManager(s.world, c, account) then Try(s.world, Enroll(c, registered)) else s.world)
  }

  function Marked(c: nat, s: Bridge, request: Gateways.Request): Bridge
    requires c in s.gateways
  {
    s.(gateways := s.gateways[c := s.gateways[c].(dispatched := s.gateways[c].dispatched + {(request.sourceChainId, request.nonce)})])
  }

  predicate CallsManager(d: Setup, c: nat, w: World, request: Gateways.Request) {
    IsManager(w, c, request.target) && d.abi.decode(request.call).Some?
  }

  ghost function CallOn(d: Setup, net: Network.Net, c: nat, s: Bridge, request: Gateways.Request, body: Body): (r: (Bridge, bool))
    requires c in s.gateways
    ensures r.0.gateways.Keys == s.gateways.Keys
    decreases body, 2
  {
    if CallsManager(d, c, s.world, request) then
      AcceptOn(net, c, s, Gateways.MessageOf(Network.ChainOf(d.network, c), request), d.abi.decode(request.call).value, !body.reverts)
    else FrameOn(d, net, c, s, body)
  }

  ghost function FrameOn(d: Setup, net: Network.Net, c: nat, s: Bridge, body: Body): (r: (Bridge, bool))
    requires c in s.gateways
    ensures r.0.gateways.Keys == s.gateways.Keys
    decreases body, 1
  {
    if body.reverts then (s, false) else (OpsOn(d, net, c, s, body.ops), true)
  }

  ghost function OpsOn(d: Setup, net: Network.Net, c: nat, s: Bridge, ops: seq<Op>): (r: Bridge)
    requires c in s.gateways
    ensures r.gateways.Keys == s.gateways.Keys
    decreases ops, 0
  {
    if ops == [] then s
    else
      OpOn(d, net, c, OpsOn(d, net, c, s, ops[..|ops| - 1]), ops[|ops| - 1])
  }

  /** Effect of an operation on chain c; `net` is committed when its transaction starts. */
  ghost function OpOn(d: Setup, net: Network.Net, c: nat, s: Bridge, op: Op): (r: Bridge)
    requires c in s.gateways
    ensures r.gateways.Keys == s.gateways.Keys
    decreases op, 4
  {
    if op.SubmitDispatch? then DispatchOn(d, net, c, s, op.request, op.body)
    else if op.Call? then FrameOn(d, net, c, s, op.body).0
    else LeafOn(d, c, s, op)
  }

  predicate IsLeaf(op: Op) {
    !op.SubmitDispatch? && !op.Call?
  }

  /** An operation that calls no further code. */
  ghost function LeafOn(d: Setup, c: nat, s: Bridge, op: Op): (r: Bridge)
    requires c in s.gateways && IsLeaf(op)
    ensures r.gateways.Keys == s.gateways.Keys
  {
    match op
    case Relay(sender, targetChainId, target, call, gasLimit) => RelayOn(c, s, sender, targetChainId, target, call, gasLimit)
    case RelayAccept(sender, targetChainId, target, args, gasLimit) =>
      RelayOn(c, s, sender, targetChainId, target, d.abi.encode(AcceptCall(CallMetadata(c, sender), args)), gasLimit)
    case SendTokens(_, _, _, _, _) => SendOn(d, c, s, op)
    case TokenCall(sender, op) => s.(world := Try(s.world, TokenStep(s.world, c, sender, op)))
    case CallAccept(caller, metadata, args) => s.(world := AcceptBy(s.world, c, caller, metadata, args))
    case SetRegistered(account, registered) => RegisterOn(c, s, account, registered)
    case SetValidators(validators) => s.(gateways := s.gateways[c := s.gateways[c].(validators := validators)])
  }

  function TokenStep(w: World, c: nat, sender: Address, op: UserOp): TokenBridge.Step {
    if c == w.home.chainId then HomeTokenCall(sender, op) else RemoteTokenCall(c, sender, op)
  }

  // ----- what a transaction may contain

  /** No honest signature is forged, few enough validators are dishonest, and other senders relay calls
      of `accept` only with metadata. */
  ghost predicate Possible(d: Setup, signed: set<(Address, Digest)>, c: nat, op: Op)
    decreases op, 1
  {
    match op
    case Relay(_, _, _, call, _) => d.abi.decode(call).None?
    case SubmitDispatch(request, body) =>
      Network.NoneForged(d.network, c, signed, request) && AllPossible(d, signed, c, body.ops)
    case Call(body) => AllPossible(d, signed, c, body.ops)
    case SetValidators(validators) => Network.Bounded(d.network, validators)
    case _ => true
  }

  ghost predicate AllPossible(d: Setup, signed: set<(Address, Digest)>, c: nat, ops: seq<Op>)
    decreases ops, 0
  {
    forall i :: 0 <= i < |ops| ==> Possible(d, signed, c, ops[i])
  }

  lemma PrefixPossible(d: Setup, signed: set<(Address, Digest)>, c: nat, ops: seq<Op>)
    requires AllPossible(d, signed, c, ops) && ops != []
    ensures AllPossible(d, signed, c, ops[..|ops| - 1]) && Possible(d, signed, c, ops[|ops| - 1])
  {
    var earlier := ops[..|ops| - 1];
    forall i | 0 <= i < |earlier|
      ensures Possible(d, signed, c, earlier[i])
    {
      assert earlier[i] == ops[i];
    }
  }

  // ----- the gateways behave as in the network

  /** What an operation is to the gateway of its chain. */
  ghost function Seen(d: Setup, net: Network.Net, c: nat, s: Bridge, op: Op): Gateways.Action
    requires c in s.gateways
    decreases op, 4
  {
    match op
    case Relay(sender, targetChainId, target, call, gasLimit) => SeenRelay(c, s, sender, targetChainId, target, call, gasLimit)
    case RelayAccept(sender, targetChainId, target, args, gasLimit) =>
      SeenRelay(c, s, sender, targetChainId, target, d.abi.encode(AcceptCall(CallMetadata(c, sender), args)), gasLimit)
    case SendTokens(_, _, _, _, _) =>
      var parcel := ParcelOf(s.world, c, op);
      if parcel.None? then NOTHING
      else Gateways.CallRelay(ManagerOn(s.world, c).value.self, parcel.value.targetChainId, parcel.value.target,
                              CallOf(d.abi, parcel.value), GAS_LIMIT)
    case TokenCall(_, _) => NOTHING
    case CallAccept(_, _, _) => NOTHING
    case SubmitDispatch(request, body) => Gateways.CallDispatch(request, SeenCall(d, net, c, Marked(c, s, request), request, body))
    case Call(body) => Gateways.CallOther(SeenBody(d, net, c, s, body))
    case SetRegistered(account, registered) => Gateways.SetRegistered(account, registered)
    case SetValidators(validators) => Gateways.SetValidators(validators)
  }

  function SeenRelay(c: nat, s: Bridge, sender: Address, targetChainId: nat, target: Address, call: Bytes,
                     gasLimit: nat): Gateways.Action {
    if IsManager(s.world, c, sender) then NOTHING else Gateways.CallRelay(sender, targetChainId, target, call, gasLimit)
  }

  /** A manager calls nobody back when it accepts. */
  ghost function SeenCall(d: Setup, net: Network.Net, c: nat, s: Bridge, request: Gateways.Request,
                          body: Body): Gateways.Behaviour
    requires c in s.gateways
    decreases body, 2
  {
    if CallsManager(d, c, s.world, request) then Gateways.Behaviour([], !CallOn(d, net, c, s, request, body).1)
    else SeenBody(d, net, c, s, body)
  }

  ghost function SeenBody(d: Setup, net: Network.Net, c: nat, s: Bridge, body: Body): Gateways.Behaviour
    requires c in s.gateways
    decreases body, 1
  {
    Gateways.Behaviour(SeenAll(d, net, c, s, body.ops), body.reverts)
  }

  ghost function SeenAll(d: Setup, net: Network.Net, c: nat, s: Bridge, ops: seq<Op>): (r: seq<Gateways.Action>)
    requires c in s.gateways
    ensures |r| == |ops|
    decreases ops, 0
  {
    if ops == [] then []
    else
      var earlier := ops[..|ops| - 1];
      SeenAll(d, net, c, s, earlier) + [Seen(d, net, c, OpsOn(d, net, c, s, earlier), ops[|ops| - 1])]
  }

  /** The gateways before and after, and what the gateway of the chain saw. */
  ghost predicate Follows(d: Setup, c: nat, before: map<nat, Gateways.State>, after: map<nat, Gateways.State>,
                          action: Gateways.Action) {
    c in before && after == before[c := Gateways.ActionEffect(Network.ChainOf(d.network, c), before[c], action)]
  }

  lemma CallFollows(d: Setup, net: Network.Net, c: nat, s: Bridge, request: Gateways.Request, body: Body)
    requires c in s.gateways
    ensures var (after, success) := CallOn(d, net, c, s, request, body);
            var (g, ok) := Gateways.ExecuteEffect(Network.ChainOf(d.network, c), s.gateways[c], SeenCall(d, net, c, s, request, body));
            after.gateways == s.gateways[c := g] && success == ok
    decreases body, 2
  {
    if !CallsManager(d, c, s.world, request) {
      FrameFollows(d, net, c, s, body);
    }
  }

  lemma FrameFollows(d: Setup, net: Network.Net, c: nat, s: Bridge, body: Body)
    requires c in s.gateways
    ensures var (after, success) := FrameOn(d, net, c, s, body);
            var (g, ok) := Gateways.ExecuteEffect(Network.ChainOf(d.network, c), s.gateways[c], SeenBody(d, net, c, s, body));
            after.gateways == s.gateways[c := g] && success == ok
    decreases body, 1
  {
    OpsFollow(d, net, c, s, body.ops);
  }

  lemma OpsFollow(d: Setup, net: Network.Net, c: nat, s: Bridge, ops: seq<Op>)
    requires c in s.gateways
    ensures OpsOn(d, net, c, s, ops).gateways ==
            s.gateways[c := Gateways.ActionsEffect(Network.ChainOf(d.network, c), s.gateways[c], SeenAll(d, net, c, s, ops))]
    decreases ops, 0
  {
    if ops != [] {
      var earlier := ops[..|ops| - 1];
      OpsFollow(d, net, c, s, earlier);
      OpFollows(d, net, c, OpsOn(d, net, c, s, earlier), ops[|ops| - 1]);
      Network.OneMore(Network.ChainOf(d.network, c), s.gateways[c], SeenAll(d, net, c, s, earlier),
                      Seen(d, net, c, OpsOn(d, net, c, s, earlier), ops[|ops| - 1]));
    }
  }

  /** To its gateway, any operation is what the network knows as an action. */
  lemma OpFollows(d: Setup, net: Network.Net, c: nat, s: Bridge, op: Op)
    requires c in s.gateways
    ensures Follows(d, c, s.gateways, OpOn(d, net, c, s, op).gateways, Seen(d, net, c, s, op))
    decreases op, 4
  {
    match op {
      case SubmitDispatch(request, body) => CallFollows(d, net, c, Marked(c, s, request), request, body);
      case Call(body) => FrameFollows(d, net, c, s, body);
      case _ =>
    }
  }

  lemma SeenIsPossible(d: Setup, net: Network.Net, c: nat, s: Bridge, op: Op)
    requires c in s.gateways && Possible(d, net.signed, c, op)
    ensures Network.Possible(d.network, c, net.signed, Seen(d, net, c, s, op))
    decreases op, 1
  {
    match op {
      case SubmitDispatch(request, body) =>
        var marked := Marked(c, s, request);
        SeenAllArePossible(d, net, c, marked, body.ops);
        var seen := SeenCall(d, net, c, marked, request, body);
        if !CallsManager(d, c, marked.world, request) {
          assert seen == SeenBody(d, net, c, marked, body);
          assert seen.actions == SeenAll(d, net, c, marked, body.ops);
        }
        assert Network.AllPossible(d.network, c, net.signed, seen.actions);
      case Call(body) =>
        SeenAllArePossible(d, net, c, s, body.ops);
      case _ =>
    }
  }

  lemma SeenAllArePossible(d: Setup, net: Network.Net, c: nat, s: Bridge, ops: seq<Op>)
    requires c in s.gateways && AllPossible(d, net.signed, c, ops)
    ensures Network.AllPossible(d.network, c, net.signed, SeenAll(d, net, c, s, ops))
    decreases ops, 0
  {
    if ops != [] {
      var earlier := ops[..|ops| - 1];
      PrefixPossible(d, net.signed, c, ops);
      SeenAllArePossible(d, net, c, s, earlier);
      SeenIsPossible(d, net, c, OpsOn(d, net, c, s, earlier), ops[|ops| - 1]);
    }
  }

  // ----- what operations do to the bridge

  /** A holder's call reaches the token of the chain, and a transfer whose parcel is relayed takes effect on the
      bridge, within any call tree. */
  lemma OperationsReachTheBridge(d: Setup, net: Network.Net, c: nat, s: Bridge, op: Op)
    requires c in s.gateways && Ready(s.world)
    ensures op.TokenCall? && c == s.world.home.chainId && op.sender != s.world.home.self ==>
              OpOn(d, net, c, s, op).world == Apply(s.world, HomeTokenCall(op.sender, op.op))
    ensures op.TokenCall? && c != s.world.home.chainId && c in s.world.remotes ==>
              OpOn(d, net, c, s, op).world == Apply(s.world, RemoteTokenCall(c, op.sender, op.op))
    ensures op.SendTokens? && |OpOn(d, net, c, s, op).gateways[c].log| > |s.gateways[c].log| ==>
              && Enabled(s.world, TransferStep(s.world, c, op))
              && OpOn(d, net, c, s, op).world == Apply(s.world, TransferStep(s.world, c, op))
    ensures op.SendTokens? && OpOn(d, net, c, s, op).gateways[c].log == s.gateways[c].log ==> OpOn(d, net, c, s, op) == s
  {
  }
}
