/** What ties managers to their gateways, kept through any call tree: each parcel has its place in the
    gateway's log, and what was dispatched of it is marked at the target. So no parcel is delivered twice. */
module BridgeLinks {
  import opened Base
  import opened Messages
  import opened TokenManager
  import opened TokenBridge
  import opened BridgeCalls
  import Gateways = ChainGateway
  import SignatureValidator
  import Network

  // ----- what links a manager to its gateway

  /** What the bookkeeping of one chain sees of the manager there. */
  datatype View = View(manager: Option<Address>, registered: bool, sent: seq<Parcel>, status: map<nat, bool>)

  function ViewOn(w: World, x: nat): View {
    if x == w.home.chainId then View(Some(w.home.self), w.home.registered, w.home.sent, w.status)
    else if x in w.remotes then
      var r := w.remotes[x];
      View(Some(r.manager.self), r.manager.registered, r.manager.sent, r.status)
    else View(None, false, [], map[])
  }

  ghost predicate Carries(abi: Abi, relayed: Relayed, parcel: Parcel) {
    relayed.targetChainId == parcel.targetChainId && relayed.target == parcel.target && relayed.call == CallOf(abi, parcel)
  }

  /** Each parcel is in the gateway's log, in its place. */
  ghost predicate Placed(abi: Abi, log: seq<Gateways.Event>, places: seq<nat>, sent: seq<Parcel>) {
    && |places| == |sent|
    && forall k :: 0 <= k < |sent| ==>
                     places[k] < |log| && log[places[k]].RelayedEvent? && Carries(abi, log[places[k]].relayed, sent[k])
  }

  /** Metadata of another sender than the manager. */
  ghost predicate OtherSender(abi: Abi, event: Gateways.Event, x: nat, manager: Option<Address>) {
    event.RelayedEvent? && abi.decode(event.relayed.call).Some? ==>
      var metadata := abi.decode(event.relayed.call).value.metadata;
      metadata.sourceChainId == x && Some(metadata.sender) != manager
  }

  /** Every other call of `accept` in the log bears the metadata of another sender. */
  ghost predicate Packed(abi: Abi, log: seq<Gateways.Event>, places: seq<nat>, x: nat, manager: Option<Address>) {
    forall i :: 0 <= i < |log| && i !in places ==> OtherSender(abi, log[i], x, manager)
  }

  ghost predicate MarkedAt(gateways: map<nat, Gateways.State>, x: nat, event: Gateways.Event) {
    && event.RelayedEvent? && event.relayed.targetChainId in gateways
    && (x, event.relayed.nonce) in gateways[event.relayed.targetChainId].dispatched
  }

  /** A parcel that was dispatched is marked at the target's gateway. */
  ghost predicate DispatchedAreMarked(gateways: map<nat, Gateways.State>, x: nat, places: seq<nat>, status: map<nat, bool>)
    requires x in gateways
  {
    forall k: nat :: k in status && k < |places| ==>
                       places[k] < |gateways[x].log| && MarkedAt(gateways, x, gateways[x].log[places[k]])
  }

  ghost predicate LinkedOn(abi: Abi, gateways: map<nat, Gateways.State>, x: nat, places: seq<nat>, v: View)
    requires x in gateways
  {
    && Placed(abi, gateways[x].log, places, v.sent)
    && Packed(abi, gateways[x].log, places, x, v.manager)
    && DispatchedAreMarked(gateways, x, places, v.status)
    && (v.manager.Some? ==> (v.registered <==> v.manager.value in gateways[x].registered))
  }

  ghost predicate Linked(abi: Abi, gateways: map<nat, Gateways.State>, places: map<nat, seq<nat>>, w: World) {
    forall x :: x in gateways ==> LinkedOn(abi, gateways, x, PlacesOn(places, x), ViewOn(w, x))
  }

  ghost predicate Sound(d: Setup, s: Bridge) {
    && Invariant(s.world)
    && 0 !in s.gateways
    && Linked(d.abi, s.gateways, s.places, s.world)
    && AllBounded(d.network, s.gateways)
  }

  ghost predicate AllBounded(w: Network.Setting, gateways: map<nat, Gateways.State>) {
    forall x :: x in gateways ==> Network.Bounded(w, gateways[x].validators)
  }

  // ----- what is taken for granted

  ghost predicate RoundTrips(abi: Abi) {
    forall call :: abi.decode(abi.encode(call)) == Some(call)
  }

  ghost predicate Extends(net: Network.Net, gateways: map<nat, Gateways.State>) {
    && net.chains.Keys == gateways.Keys
    && forall x :: x in net.chains ==> net.chains[x].log <= gateways[x].log
  }

  // ----- steps of the token bridge as the gateways see them

  lemma TryKeeps(w: World, step: TokenBridge.Step)
    requires Invariant(w) && !step.Message?
    ensures Invariant(Try(w, step)) && Try(w, step).forged == w.forged
  {
    if Ready(w) && Enabled(w, step) {
      StepKeeps(w, step);
    }
  }

  lemma QuietStep(w: World, step: TokenBridge.Step, x: nat)
    requires step.HomeTokenCall? || step.RemoteTokenCall? || step.Register?
    ensures ViewOn(Try(w, step), x) == ViewOn(w, x)
  {
  }

  lemma TransferViews(w: World, c: nat, op: Op, x: nat)
    requires op.SendTokens? && ParcelOf(w, c, op).Some?
    ensures var v := ViewOn(w, x);
            ViewOn(Try(w, TransferStep(w, c, op)), x) ==
            if x == c then v.(sent := v.sent + [ParcelOf(w, c, op).value]) else v
    ensures ManagerOn(w, c).value.registered
  {
  }

  lemma EnrollViews(w: World, c: nat, registered: bool, x: nat)
    requires ManagerOn(w, c).Some? && Ready(w)
    ensures var v := ViewOn(w, x);
            ViewOn(Try(w, Enroll(c, registered)), x) == if x == c then v.(registered := registered) else v
  {
  }

  // ----- a gateway's state grows

  ghost predicate MarksGrow(gateways: map<nat, Gateways.State>, gateways': map<nat, Gateways.State>) {
    forall y :: y in gateways ==> y in gateways' && gateways[y].dispatched <= gateways'[y].dispatched
  }

  ghost predicate AddsOnlyOthers(abi: Abi, log: seq<Gateways.Event>, log': seq<Gateways.Event>, x: nat,
                                 manager: Option<Address>) {
    log <= log' && forall i :: |log| <= i < |log'| ==> OtherSender(abi, log'[i], x, manager)
  }

  lemma PackedGrows(abi: Abi, log: seq<Gateways.Event>, log': seq<Gateways.Event>, places: seq<nat>, x: nat,
                    manager: Option<Address>)
    requires Packed(abi, log, places, x, manager) && AddsOnlyOthers(abi, log, log', x, manager)
    ensures Packed(abi, log', places, x, manager)
  {
  }

  lemma MarkedGrows(gateways: map<nat, Gateways.State>, gateways': map<nat, Gateways.State>, x: nat, places: seq<nat>,
                    status: map<nat, bool>)
    requires x in gateways && DispatchedAreMarked(gateways, x, places, status)
    requires MarksGrow(gateways, gateways') && gateways[x].log <= gateways'[x].log
    ensures DispatchedAreMarked(gateways', x, places, status)
  {
  }

  lemma LinkGrows(abi: Abi, gateways: map<nat, Gateways.State>, gateways': map<nat, Gateways.State>, x: nat,
                  places: seq<nat>, v: View)
    requires x in gateways && LinkedOn(abi, gateways, x, places, v)
    requires MarksGrow(gateways, gateways') && gateways[x].registered == gateways'[x].registered
    requires AddsOnlyOthers(abi, gateways[x].log, gateways'[x].log, x, v.manager)
    ensures LinkedOn(abi, gateways', x, places, v)
  {
    PackedGrows(abi, gateways[x].log, gateways'[x].log, places, x, v.manager);
    MarkedGrows(gateways, gateways', x, places, v.status);
  }

  /** Nothing that a gateway adds to its log or marks breaks a link, unless it logs the manager's metadata. */
  lemma GatewayGrows(abi: Abi, gateways: map<nat, Gateways.State>, places: map<nat, seq<nat>>, w: World, c: nat,
                     g: Gateways.State)
    requires Linked(abi, gateways, places, w) && c in gateways
    requires AddsOnlyOthers(abi, gateways[c].log, g.log, c, ViewOn(w, c).manager)
    requires gateways[c].dispatched <= g.dispatched && gateways[c].registered == g.registered
    ensures Linked(abi, gateways[c := g], places, w)
  {
    forall x | x in gateways
      ensures LinkedOn(abi, gateways[c := g], x, PlacesOn(places, x), ViewOn(w, x))
    {
      LinkGrows(abi, gateways, gateways[c := g], x, PlacesOn(places, x), ViewOn(w, x));
    }
  }

  lemma BoundKept(w: Network.Setting, gateways: map<nat, Gateways.State>, c: nat, g: Gateways.State)
    requires AllBounded(w, gateways) && Network.Bounded(w, g.validators)
    ensures AllBounded(w, gateways[c := g])
  {
  }

  lemma ExtensionKept(net: Network.Net, gateways: map<nat, Gateways.State>, c: nat, g: Gateways.State)
    requires Extends(net, gateways) && c in gateways && gateways[c].log <= g.log
    ensures Extends(net, gateways[c := g])
  {
  }

  lemma GatewayKeepsSound(d: Setup, net: Network.Net, s: Bridge, c: nat, g: Gateways.State)
    requires Sound(d, s) && Extends(net, s.gateways) && c in s.gateways
    requires AddsOnlyOthers(d.abi, s.gateways[c].log, g.log, c, ViewOn(s.world, c).manager)
    requires s.gateways[c].dispatched <= g.dispatched && s.gateways[c].registered == g.registered
    requires Network.Bounded(d.network, g.validators)
    ensures Sound(d, s.(gateways := s.gateways[c := g])) && Extends(net, s.gateways[c := g])
  {
    GatewayGrows(d.abi, s.gateways, s.places, s.world, c, g);
    BoundKept(d.network, s.gateways, c, g);
    ExtensionKept(net, s.gateways, c, g);
  }

  lemma RelayLogs(abi: Abi, g: Gateways.State, c: nat, manager: Option<Address>, sender: Address, targetChainId: nat,
                  target: Address, call: Bytes, gasLimit: nat)
    requires manager != Some(sender)
    requires abi.decode(call).Some? ==> abi.decode(call).value.metadata == CallMetadata(c, sender)
    ensures var g' := Gateways.RelayEffect(g, sender, targetChainId, target, call, gasLimit).0;
            && AddsOnlyOthers(abi, g.log, g'.log, c, manager)
            && g'.dispatched == g.dispatched && g'.registered == g.registered && g'.validators == g.validators
  {
  }

  lemma RelayKeeps(d: Setup, net: Network.Net, c: nat, s: Bridge, sender: Address, targetChainId: nat, target: Address,
                   call: Bytes, gasLimit: nat)
    requires Sound(d, s) && Extends(net, s.gateways) && c in s.gateways
    requires d.abi.decode(call).Some? ==> d.abi.decode(call).value.metadata == CallMetadata(c, sender)
    ensures var s' := RelayOn(c, s, sender, targetChainId, target, call, gasLimit);
            Sound(d, s') && Extends(net, s'.gateways)
  {
    if !IsManager(s.world, c, sender) {
      RelayLogs(d.abi, s.gateways[c], c, ViewOn(s.world, c).manager, sender, targetChainId, target, call, gasLimit);
      GatewayKeepsSound(d, net, s, c, RelayOn(c, s, sender, targetChainId, target, call, gasLimit).gateways[c]);
    }
  }

  /** The manager's own relay puts its parcel in place. */
  lemma ParcelPlaced(abi: Abi, gateways: map<nat, Gateways.State>, c: nat, places: seq<nat>, v: View, g: Gateways.State,
                     parcel: Parcel)
    requires c in gateways && LinkedOn(abi, gateways, c, places, v)
    requires gateways[c].dispatched == g.dispatched && gateways[c].registered == g.registered
    requires |g.log| == |gateways[c].log| + 1 && gateways[c].log <= g.log
    requires var event := g.log[|gateways[c].log|]; event.RelayedEvent? && Carries(abi, event.relayed, parcel)
    requires forall k :: k in v.status ==> k < |v.sent|
    ensures LinkedOn(abi, gateways[c := g], c, places + [|gateways[c].log|], v.(sent := v.sent + [parcel]))
  {
    var after := places + [|gateways[c].log|];
    assert after[|places|] == |gateways[c].log| && forall i :: i !in after ==> i !in places;
    assert Packed(abi, g.log, after, c, v.manager);
    assert Placed(abi, g.log, after, v.sent + [parcel]);
    MarkedGrows(gateways, gateways[c := g], c, places, v.status);
  }

  lemma StatusWithin(w: World, c: nat)
    requires Invariant(w)
    ensures forall k :: k in ViewOn(w, c).status ==> k < |ViewOn(w, c).sent|
  {
    if c in w.remotes {
      assert RemoteShape(IdOf(w), c, w.remotes[c]);
    }
  }

  /** A transfer puts its parcel into the log in the manager's name. */
  lemma SendKeeps(d: Setup, net: Network.Net, c: nat, s: Bridge, op: Op)
    requires Sound(d, s) && Extends(net, s.gateways) && c in s.gateways && op.SendTokens?
    ensures var s' := SendOn(d, c, s, op);
            Sound(d, s') && Extends(net, s'.gateways)
  {
    var s' := SendOn(d, c, s, op);
    if s' != s {
      var g' := s'.gateways[c];
      TryKeeps(s.world, TransferStep(s.world, c, op));
      BoundKept(d.network, s.gateways, c, g');
      ExtensionKept(net, s.gateways, c, g');
      StatusWithin(s.world, c);
      TransferLinks(d, s, c, op, g', s'.world);
    }
  }

  lemma TransferLinks(d: Setup, s: Bridge, c: nat, op: Op, g': Gateways.State, w': World)
    requires Linked(d.abi, s.gateways, s.places, s.world) && c in s.gateways && op.SendTokens?
    requires ParcelOf(s.world, c, op).Some? && w' == Try(s.world, TransferStep(s.world, c, op))
    requires s.gateways[c].dispatched == g'.dispatched && s.gateways[c].registered == g'.registered
    requires |g'.log| == |s.gateways[c].log| + 1 && s.gateways[c].log <= g'.log
    requires var event := g'.log[|s.gateways[c].log|];
             event.RelayedEvent? && Carries(d.abi, event.relayed, ParcelOf(s.world, c, op).value)
    requires forall k :: k in ViewOn(s.world, c).status ==> k < |ViewOn(s.world, c).sent|
    ensures Linked(d.abi, s.gateways[c := g'], s.places[c := PlacesOn(s.places, c) + [|s.gateways[c].log|]], w')
  {
    var gateways', places' := s.gateways[c := g'], s.places[c := PlacesOn(s.places, c) + [|s.gateways[c].log|]];
    forall x | x in gateways'
      ensures LinkedOn(d.abi, gateways', x, PlacesOn(places', x), ViewOn(w', x))
    {
      TransferViews(s.world, c, op, x);
      if x == c {
        ParcelPlaced(d.abi, s.gateways, c, PlacesOn(s.places, c), ViewOn(s.world, c), g', ParcelOf(s.world, c, op).value);
      } else {
        LinkGrows(d.abi, s.gateways, gateways', x, PlacesOn(s.places, x), ViewOn(s.world, x));
      }
    }
  }

  lemma TokenCallKeeps(d: Setup, s: Bridge, step: TokenBridge.Step)
    requires Sound(d, s) && (step.HomeTokenCall? || step.RemoteTokenCall? || step.Register?)
    ensures Sound(d, s.(world := Try(s.world, step)))
  {
    TryKeeps(s.world, step);
    forall x | x in s.gateways
      ensures LinkedOn(d.abi, s.gateways, x, PlacesOn(s.places, x), ViewOn(Try(s.world, step), x))
    {
      QuietStep(s.world, step, x);
    }
  }

  // ----- a delivery

  function DeliveryStep(w: World, x: nat, k: nat, enoughGas: bool): TokenBridge.Step {
    if x == w.home.chainId then DeliverToRemote(k, enoughGas) else DeliverToHome(x, k, enoughGas)
  }

  lemma OutboundDeliveryIsStep(w: World, k: nat, enoughGas: bool)
    requires Invariant(w) && k < |w.home.sent| && k !in w.status && w.home.sent[k].targetChainId != 0
    ensures var parcel := w.home.sent[k];
            && IsManager(w, parcel.targetChainId, parcel.target)
            && var after := Delivery(ManagerOn(w, parcel.targetChainId).value, parcel, enoughGas);
               var paid := if after.Some? then Replaced(w, parcel.targetChainId, after.value, parcel.args) else w;
               && Ready(w) && Enabled(w, DeliverToRemote(k, enoughGas))
               && Apply(w, DeliverToRemote(k, enoughGas)) == Noted(paid, w.home.chainId, k, after.Some?)
  {
    InvariantIsReady(w);
    assert OutboundShape(IdOf(w), w.remotes, w.home.sent[k]);
    assert RemoteShape(IdOf(w), w.home.sent[k].targetChainId, w.remotes[w.home.sent[k].targetChainId]);
  }

  lemma InboundDeliveryIsStep(w: World, x: nat, k: nat, enoughGas: bool)
    requires Invariant(w) && x in w.remotes && k < |w.remotes[x].manager.sent|
    requires k !in w.remotes[x].status && w.remotes[x].manager.sent[k].targetChainId != 0
    ensures var parcel := w.remotes[x].manager.sent[k];
            && IsManager(w, parcel.targetChainId, parcel.target)
            && var after := Delivery(ManagerOn(w, parcel.targetChainId).value, parcel, enoughGas);
               var paid := if after.Some? then Replaced(w, parcel.targetChainId, after.value, parcel.args) else w;
               && Ready(w) && Enabled(w, DeliverToHome(x, k, enoughGas))
               && Apply(w, DeliverToHome(x, k, enoughGas)) == Noted(paid, x, k, after.Some?)
  {
    InvariantIsReady(w);
    assert RemoteShape(IdOf(w), x, w.remotes[x]);
    assert InboundShape(IdOf(w), x, w.remotes[x].manager.self, w.remotes[x].manager.sent[k]);
  }

  /** Accepting a waiting parcel is the delivery step of the token bridge. */
  lemma DeliveryIsStep(w: World, x: nat, k: nat, parcel: Parcel, enoughGas: bool)
    requires Invariant(w) && k < |ViewOn(w, x).sent| && parcel == ViewOn(w, x).sent[k] && k !in ViewOn(w, x).status
    requires parcel.targetChainId != 0
    ensures IsManager(w, parcel.targetChainId, parcel.target)
    ensures var step := DeliveryStep(w, x, k, enoughGas);
            var after := Delivery(ManagerOn(w, parcel.targetChainId).value, parcel, enoughGas);
            var paid := if after.Some? then Replaced(w, parcel.targetChainId, after.value, parcel.args) else w;
            && Ready(w) && Enabled(w, step)
            && Apply(w, step) == Noted(paid, x, k, after.Some?)
  {
    if x == w.home.chainId {
      OutboundDeliveryIsStep(w, k, enoughGas);
    } else {
      InboundDeliveryIsStep(w, x, k, enoughGas);
    }
  }

  lemma DeliveryTouchesTokens(m: State, parcel: Parcel, enoughGas: bool)
    ensures var after := Delivery(m, parcel, enoughGas);
            after.Some? ==> after.value == m.(tokens := after.value.tokens)
  {
  }

  /** Only the status of the delivered parcel changes. */
  lemma DeliveryViews(w: World, x: nat, k: nat, enoughGas: bool)
    requires Ready(w) && Enabled(w, DeliveryStep(w, x, k, enoughGas))
    ensures var w' := Apply(w, DeliveryStep(w, x, k, enoughGas));
            && w'.home.chainId == w.home.chainId
            && ViewOn(w', x) == ViewOn(w, x).(status := ViewOn(w', x).status)
            && k in ViewOn(w', x).status && ViewOn(w', x).status == ViewOn(w, x).status[k := ViewOn(w', x).status[k]]
  {
    if x == w.home.chainId {
      var target := w.home.sent[k].targetChainId;
      DeliveryTouchesTokens(w.remotes[target].manager, w.home.sent[k], enoughGas);
    } else {
      DeliveryTouchesTokens(w.home, w.remotes[x].manager.sent[k], enoughGas);
    }
  }

  lemma OtherViews(w: World, x: nat, k: nat, enoughGas: bool, y: nat)
    requires Ready(w) && Enabled(w, DeliveryStep(w, x, k, enoughGas)) && y != x
    ensures ViewOn(Apply(w, DeliveryStep(w, x, k, enoughGas)), y) == ViewOn(w, y)
  {
    if x == w.home.chainId {
      var target := w.home.sent[k].targetChainId;
      DeliveryTouchesTokens(w.remotes[target].manager, w.home.sent[k], enoughGas);
    } else {
      DeliveryTouchesTokens(w.home, w.remotes[x].manager.sent[k], enoughGas);
    }
  }

  /** A message that is a parcel's was not dispatched before, so its dispatch delivers that parcel. */
  lemma ParcelArrives(d: Setup, net: Network.Net, c: nat, s: Bridge, message: RelayEvent, k: nat, accept: AcceptCall)
    requires RoundTrips(d.abi) && Sound(d, s) && Extends(net, s.gateways) && c in s.gateways
    requires message.targetChainId == c && (message.sourceChainId, message.nonce) !in s.gateways[c].dispatched
    requires k < |PlacesOn(s.places, message.sourceChainId)|
    requires IsMessageAt(net, message, PlacesOn(s.places, message.sourceChainId)[k])
    requires d.abi.decode(message.call) == Some(accept)
    ensures var v := ViewOn(s.world, message.sourceChainId);
            k < |v.sent| && k !in v.status && v.sent[k] == Parcel(c, message.target, accept.metadata, accept.args)
  {
    var x := message.sourceChainId;
    var places := PlacesOn(s.places, x);
    assert LinkedOn(d.abi, s.gateways, x, places, ViewOn(s.world, x));
    assert s.gateways[x].log[places[k]] == net.chains[x].log[places[k]];
    assert k in ViewOn(s.world, x).status ==> MarkedAt(s.gateways, x, s.gateways[x].log[places[k]]);
  }

  /** A message that is no parcel's bears the metadata of another sender. */
  lemma OtherIsForeign(d: Setup, net: Network.Net, s: Bridge, message: RelayEvent, i: nat, accept: AcceptCall)
    requires Sound(d, s) && Extends(net, s.gateways)
    requires IsMessageAt(net, message, i) && i !in PlacesOn(s.places, message.sourceChainId)
    requires d.abi.decode(message.call) == Some(accept)
    ensures Foreign(s.world, accept.metadata)
  {
    var x := message.sourceChainId;
    assert LinkedOn(d.abi, s.gateways, x, PlacesOn(s.places, x), ViewOn(s.world, x));
    assert OtherSender(d.abi, s.gateways[x].log[i], x, ViewOn(s.world, x).manager);
    assert s.gateways[x].log[i] == net.chains[x].log[i];
  }

  lemma DeliveredLinks(d: Setup, s: Bridge, gateways: map<nat, Gateways.State>, x: nat, k: nat, enoughGas: bool)
    requires Linked(d.abi, gateways, s.places, s.world) && x in gateways
    requires Ready(s.world) && Enabled(s.world, DeliveryStep(s.world, x, k, enoughGas))
    requires k < |PlacesOn(s.places, x)| ==> MarkedAt(gateways, x, gateways[x].log[PlacesOn(s.places, x)[k]])
    requires k < |PlacesOn(s.places, x)| ==> PlacesOn(s.places, x)[k] < |gateways[x].log|
    ensures Linked(d.abi, gateways, s.places, Apply(s.world, DeliveryStep(s.world, x, k, enoughGas)))
  {
    var w' := Apply(s.world, DeliveryStep(s.world, x, k, enoughGas));
    forall y | y in gateways
      ensures LinkedOn(d.abi, gateways, y, PlacesOn(s.places, y), ViewOn(w', y))
    {
      if y == x {
        DeliveryViews(s.world, x, k, enoughGas);
      } else {
        OtherViews(s.world, x, k, enoughGas, y);
      }
      assert LinkedOn(d.abi, gateways, y, PlacesOn(s.places, y), ViewOn(s.world, y));
    }
  }

  lemma MarkKeeps(d: Setup, net: Network.Net, c: nat, s: Bridge, request: Gateways.Request)
    requires Sound(d, s) && Extends(net, s.gateways) && c in s.gateways
    ensures Sound(d, Marked(c, s, request)) && Extends(net, Marked(c, s, request).gateways)
  {
    GatewayKeepsSound(d, net, s, c, Marked(c, s, request).gateways[c]);
  }

  /** Parcel k of the source's manager was waiting, says what the request says, and is now delivered. */
  ghost predicate IsDelivered(d: Setup, c: nat, w: World, request: Gateways.Request, k: nat, enoughGas: bool, w': World) {
    var v := ViewOn(w, request.sourceChainId);
    var call := d.abi.decode(request.call);
    && k < |v.sent| && k !in v.status && call.Some?
    && v.sent[k] == Parcel(c, request.target, call.value.metadata, call.value.args)
    && Ready(w) && Enabled(w, DeliveryStep(w, request.sourceChainId, k, enoughGas))
    && w' == Apply(w, DeliveryStep(w, request.sourceChainId, k, enoughGas))
  }

  /** The gateway's call of the manager delivers the parcel that the message is; a message that is none
      is handled like that of any other sender. */
  lemma AcceptDelivers(d: Setup, net: Network.Net, c: nat, s: Bridge, request: Gateways.Request, enoughGas: bool)
    returns (k: Option<nat>)
    requires RoundTrips(d.abi) && Sound(d, s) && Extends(net, s.gateways) && c in s.gateways
    requires CallsManager(d, c, s.world, request)
    requires (request.sourceChainId, request.nonce) !in s.gateways[c].dispatched
    ensures var message := Gateways.MessageOf(Network.ChainOf(d.network, c), request);
            k == ParcelIn(net, s.places, message) && Accepted(d, net, c, s, request, k, enoughGas)
  {
    var message, accept := Gateways.MessageOf(Network.ChainOf(d.network, c), request), d.abi.decode(request.call).value;
    k := ParcelIn(net, s.places, message);
    if k.Some? {
      ParcelArrives(d, net, c, s, message, k.value, accept);
      DeliveryIsStep(s.world, message.sourceChainId, k.value, Parcel(c, message.target, accept.metadata, accept.args), enoughGas);
    }
  }

  ghost predicate Accepted(d: Setup, net: Network.Net, c: nat, s: Bridge, request: Gateways.Request, k: Option<nat>, enoughGas: bool)
    requires c in s.gateways && CallsManager(d, c, s.world, request)
  {
    var message, accept := Gateways.MessageOf(Network.ChainOf(d.network, c), request), d.abi.decode(request.call).value;
    var marked := Marked(c, s, request);
    var s' := AcceptOn(net, c, marked, message, accept, enoughGas).0;
    && s'.gateways == marked.gateways && s'.places == s.places
    && match k
       case Some(k) =>
         && IsDelivered(d, c, s.world, request, k, enoughGas, s'.world)
         && k < |PlacesOn(s.places, request.sourceChainId)|
         && IsMessageAt(net, message, PlacesOn(s.places, request.sourceChainId)[k])
       case None => s'.world == MessageEffect(s.world, Parcel(c, message.target, accept.metadata, accept.args), enoughGas)
  }

  lemma DeliveryKeeps(d: Setup, net: Network.Net, c: nat, s: Bridge, request: Gateways.Request, k: nat, enoughGas: bool)
    requires Sound(d, s) && Extends(net, s.gateways) && c in s.gateways && CallsManager(d, c, s.world, request)
    requires Accepted(d, net, c, s, request, Some(k), enoughGas)
    ensures var w' := Apply(s.world, DeliveryStep(s.world, request.sourceChainId, k, enoughGas));
            Sound(d, Marked(c, s, request).(world := w'))
  {
    var marked, x := Marked(c, s, request), request.sourceChainId;
    MarkKeeps(d, net, c, s, request);
    StepKeeps(s.world, DeliveryStep(s.world, x, k, enoughGas));
    assert net.chains[x].log[PlacesOn(s.places, x)[k]] == marked.gateways[x].log[PlacesOn(s.places, x)[k]];
    DeliveredLinks(d, marked, marked.gateways, x, k, enoughGas);
  }

  lemma MessageViews(w: World, parcel: Parcel, enoughGas: bool, x: nat)
    requires ManagerOn(w, parcel.targetChainId).Some?
    ensures ViewOn(MessageEffect(w, parcel, enoughGas), x) == ViewOn(w, x)
  {
    DeliveryTouchesTokens(ManagerOn(w, parcel.targetChainId).value, parcel, enoughGas);
  }

  lemma OtherMessageKeeps(d: Setup, s: Bridge, parcel: Parcel, enoughGas: bool)
    requires Sound(d, s) && ManagerOn(s.world, parcel.targetChainId).Some?
    ensures Sound(d, s.(world := MessageEffect(s.world, parcel, enoughGas)))
  {
    if parcel.targetChainId == s.world.home.chainId {
      MessageHomeKeeps(s.world, parcel, enoughGas);
    } else {
      MessageRemoteKeeps(s.world, parcel, enoughGas);
    }
    forall x | x in s.gateways
      ensures LinkedOn(d.abi, s.gateways, x, PlacesOn(s.places, x), ViewOn(MessageEffect(s.world, parcel, enoughGas), x))
    {
      MessageViews(s.world, parcel, enoughGas, x);
    }
  }

  lemma AcceptKeeps(d: Setup, net: Network.Net, c: nat, s: Bridge, request: Gateways.Request, enoughGas: bool)
    requires RoundTrips(d.abi) && Sound(d, s) && Extends(net, s.gateways) && c in s.gateways
    requires CallsManager(d, c, s.world, request)
    requires (request.sourceChainId, request.nonce) !in s.gateways[c].dispatched
    ensures var message := Gateways.MessageOf(Network.ChainOf(d.network, c), request);
            var s' := AcceptOn(net, c, Marked(c, s, request), message, d.abi.decode(request.call).value, enoughGas).0;
            Sound(d, s') && Extends(net, s'.gateways)
  {
    var k := AcceptDelivers(d, net, c, s, request, enoughGas);
    MarkKeeps(d, net, c, s, request);
    if k.Some? {
      DeliveryKeeps(d, net, c, s, request, k.value, enoughGas);
    } else {
      var accept := d.abi.decode(request.call).value;
      OtherMessageKeeps(d, Marked(c, s, request), Parcel(c, request.target, accept.metadata, accept.args), enoughGas);
    }
  }

  // ----- call trees

  lemma RegistrationLinks(abi: Abi, s: Bridge, c: nat, account: Address, registered: bool, w': World, x: nat)
    requires Linked(abi, s.gateways, s.places, s.world) && c in s.gateways && x in s.gateways && Ready(s.world)
    requires w' == if IsManager(s.world, c, account) then Try(s.world, Enroll(c, registered)) else s.world
    ensures LinkedOn(abi, s.gateways[c := RegistrationOf(s.gateways[c], account, registered)], x, PlacesOn(s.places, x), ViewOn(w', x))
  {
    assert LinkedOn(abi, s.gateways, x, PlacesOn(s.places, x), ViewOn(s.world, x));
    if IsManager(s.world, c, account) {
      EnrollViews(s.world, c, registered, x);
    }
    RegisteredLinks(abi, s.gateways, x, PlacesOn(s.places, x), ViewOn(s.world, x), ViewOn(w', x), c,
                    RegistrationOf(s.gateways[c], account, registered));
  }

  lemma AllRegistrationLinks(abi: Abi, s: Bridge, c: nat, account: Address, registered: bool)
    requires Linked(abi, s.gateways, s.places, s.world) && c in s.gateways && Ready(s.world)
    ensures var s' := RegisterOn(c, s, account, registered);
            Linked(abi, s'.gateways, s'.places, s'.world)
  {
    var s' := RegisterOn(c, s, account, registered);
    forall x | x in s'.gateways
      ensures LinkedOn(abi, s'.gateways, x, PlacesOn(s'.places, x), ViewOn(s'.world, x))
    {
      RegistrationLinks(abi, s, c, account, registered, s'.world, x);
    }
  }

  /** The manager's registration at its gateway is what its own transfers depend on. */
  lemma RegisterOnKeeps(d: Setup, net: Network.Net, c: nat, s: Bridge, account: Address, registered: bool)
    requires Sound(d, s) && Extends(net, s.gateways) && c in s.gateways
    ensures var s' := RegisterOn(c, s, account, registered);
            Sound(d, s') && Extends(net, s'.gateways)
  {
    BoundKept(d.network, s.gateways, c, RegistrationOf(s.gateways[c], account, registered));
    ExtensionKept(net, s.gateways, c, RegistrationOf(s.gateways[c], account, registered));
    TryKeeps(s.world, Enroll(c, registered));
    InvariantIsReady(s.world);
    AllRegistrationLinks(d.abi, s, c, account, registered);
  }

  lemma RegisteredLinks(abi: Abi, gateways: map<nat, Gateways.State>, x: nat, places: seq<nat>, v: View, v': View,
                        c: nat, g: Gateways.State)
    requires x in gateways && c in gateways && LinkedOn(abi, gateways, x, places, v)
    requires g == gateways[c].(registered := g.registered) && v' == v.(registered := v'.registered)
    requires v'.manager.Some? ==> (v'.registered <==> v'.manager.value in gateways[c := g][x].registered)
    ensures LinkedOn(abi, gateways[c := g], x, places, v')
  {
    MarkedGrows(gateways, gateways[c := g], x, places, v.status);
  }

  lemma LogKeeps(d: Setup, net: Network.Net, c: nat, s: Bridge, message: RelayEvent, success: bool)
    requires Sound(d, s) && Extends(net, s.gateways) && c in s.gateways
    ensures var gateways := s.gateways[c := Logged(s.gateways[c], Gateways.DispatchedEvent(message, success))];
            Sound(d, s.(gateways := gateways)) && Extends(net, gateways)
  {
    GatewayKeepsSound(d, net, s, c, Logged(s.gateways[c], Gateways.DispatchedEvent(message, success)));
  }

  lemma DispatchKeeps(d: Setup, net: Network.Net, c: nat, s: Bridge, request: Gateways.Request, body: Body)
    requires RoundTrips(d.abi) && Sound(d, s) && Extends(net, s.gateways) && c in s.gateways
    requires Possible(d, net.signed, c, SubmitDispatch(request, body))
    ensures var s' := DispatchOn(d, net, c, s, request, body);
            Sound(d, s') && Extends(net, s'.gateways)
    decreases body, 3
  {
    var g := s.gateways[c];
    var message := Gateways.MessageOf(Network.ChainOf(d.network, c), request);
    if && (request.sourceChainId, request.nonce) !in g.dispatched
       && SignatureValidator.Accepts(d.network.recover, g.validators, Digest(message), request.signatures) {
      var marked := Marked(c, s, request);
      MarkKeeps(d, net, c, s, request);
      if request.isContract {
        if CallsManager(d, c, s.world, request) {
          AcceptKeeps(d, net, c, s, request, !body.reverts);
        } else {
          FrameKeeps(d, net, c, marked, body);
        }
      }
      var (after, success) := if request.isContract then CallOn(d, net, c, marked, request, body) else (marked, false);
      LogKeeps(d, net, c, after, message, success);
    }
  }

  lemma FrameKeeps(d: Setup, net: Network.Net, c: nat, s: Bridge, body: Body)
    requires RoundTrips(d.abi) && Sound(d, s) && Extends(net, s.gateways) && c in s.gateways
    requires AllPossible(d, net.signed, c, body.ops)
    ensures var s' := FrameOn(d, net, c, s, body).0;
            Sound(d, s') && Extends(net, s'.gateways)
    decreases body, 1
  {
    OpsKeep(d, net, c, s, body.ops);
  }

  lemma OpsKeep(d: Setup, net: Network.Net, c: nat, s: Bridge, ops: seq<Op>)
    requires RoundTrips(d.abi) && Sound(d, s) && Extends(net, s.gateways) && c in s.gateways
    requires AllPossible(d, net.signed, c, ops)
    ensures var s' := OpsOn(d, net, c, s, ops);
            Sound(d, s') && Extends(net, s'.gateways)
    decreases ops, 0
  {
    if ops != [] {
      var earlier := ops[..|ops| - 1];
      PrefixPossible(d, net.signed, c, ops);
      OpsKeep(d, net, c, s, earlier);
      OpKeeps(d, net, c, OpsOn(d, net, c, s, earlier), ops[|ops| - 1]);
    }
  }

  lemma RelayingKeeps(d: Setup, net: Network.Net, c: nat, s: Bridge, op: Op)
    requires Sound(d, s) && Extends(net, s.gateways) && c in s.gateways
    requires RoundTrips(d.abi) && Possible(d, net.signed, c, op) && (op.Relay? || op.RelayAccept?)
    ensures var s' := LeafOn(d, c, s, op);
            Sound(d, s') && Extends(net, s'.gateways)
  {
    var call := if op.Relay? then op.call else d.abi.encode(AcceptCall(CallMetadata(c, op.sender), op.args));
    RelayKeeps(d, net, c, s, op.sender, op.targetChainId, op.target, call, op.gasLimit);
  }

  lemma LeafKeeps(d: Setup, net: Network.Net, c: nat, s: Bridge, op: Op)
    requires Sound(d, s) && Extends(net, s.gateways) && c in s.gateways
    requires RoundTrips(d.abi) && Possible(d, net.signed, c, op) && IsLeaf(op)
    ensures var s' := LeafOn(d, c, s, op);
            Sound(d, s') && Extends(net, s'.gateways)
  {
    if op.Relay? || op.RelayAccept? {
      RelayingKeeps(d, net, c, s, op);
    } else if op.SendTokens? {
      SendKeeps(d, net, c, s, op);
    } else if op.TokenCall? {
      TokenCallKeeps(d, s, TokenStep(s.world, c, op.sender, op.op));
    } else if op.CallAccept? {
      DirectAcceptIsRefused(s.world, c, op.caller, op.metadata, op.args);
    } else if op.SetRegistered? {
      RegisterOnKeeps(d, net, c, s, op.account, op.registered);
    } else {
      GatewayKeepsSound(d, net, s, c, s.gateways[c].(validators := op.validators));
    }
  }

  /** Any call tree keeps the books of the bridge and the links between managers and gateways. */
  lemma OpKeeps(d: Setup, net: Network.Net, c: nat, s: Bridge, op: Op)
    requires RoundTrips(d.abi) && Sound(d, s) && Extends(net, s.gateways) && c in s.gateways
    requires Possible(d, net.signed, c, op)
    ensures var s' := OpOn(d, net, c, s, op);
            Sound(d, s') && Extends(net, s'.gateways)
    decreases op, 4
  {
    if op.SubmitDispatch? {
      DispatchKeeps(d, net, c, s, op.request, op.body);
    } else if op.Call? {
      FrameKeeps(d, net, c, s, op.body);
    } else {
      LeafKeeps(d, net, c, s, op);
    }
  }
}
