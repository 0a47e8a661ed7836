/** One home token bridged from its home chain to any number of remote chains. */
module TokenBridge {
  import opened Base
  import opened Sums
  import opened Erc20
  import opened TokenManager

  /** A remote chain; `status` tells of each parcel it sent whether it was dispatched at home and
      how that went. An absent index has not been dispatched. */
  datatype Remote = Remote(manager: State, token: Address, status: map<nat, bool>)

  /** `donated` counts what reached the home manager other than by locking, and `forged` what was paid
      out or minted on messages that no manager relayed. */
  datatype World = World(
    token: Address, home: State, status: map<nat, bool>, remotes: map<nat, Remote>, donated: nat, forged: nat)

  datatype UserOp =
    | Transfer(to: Address, value: nat)
    | TransferFrom(from: Address, to: Address, value: nat)
    | Approve(spender: Address, value: nat)

  datatype Step =
    | HomeTokenCall(sender: Address, op: UserOp)
    | RemoteTokenCall(chainId: nat, sender: Address, op: UserOp)
    | Lock(sender: Address, token: Address, remoteChainId: nat, recipient: Address, amount: nat)
    | Burn(chainId: nat, sender: Address, token: Address, remoteChainId: nat, recipient: Address, amount: nat)
    | DeliverToRemote(index: nat, enoughGas: bool)
    | DeliverToHome(chainId: nat, index: nat, enoughGas: bool)
    | Deploy(chainId: nat, manager: Address, gateway: Address, token: Address)
    | Register(chainId: nat)
    | Enroll(chainId: nat, registered: bool)
    // the dispatch of a call of `accept` that another sender relayed, with any metadata
    | Message(parcel: Parcel, enoughGas: bool)

  function UserEffect(l: Ledger, sender: Address, op: UserOp): Option<Ledger> {
    match op
    case Transfer(to, value) => Move(l, sender, to, value)
    case TransferFrom(from, to, value) => Erc20.TransferFrom(l, sender, from, to, value)
    case Approve(spender, value) => Erc20.Approve(l, sender, spender, value)
  }

  /** Holders move, spend and approve as in any EIP-20 token. */
  lemma HoldersActIff(l: Ledger, sender: Address, from: Address, to: Address, value: nat)
    requires Conserved(l)
    ensures UserEffect(l, sender, Transfer(to, value)).Some? <==>
            sender != ZERO_ADDRESS && to != ZERO_ADDRESS && value <= BalanceOf(l, sender)
    ensures UserEffect(l, sender, Transfer(to, value)).Some? ==>
              forall a :: BalanceOf(UserEffect(l, sender, Transfer(to, value)).value, a) ==
                          BalanceOf(l, a) - (if a == sender then value else 0) + (if a == to then value else 0)
    ensures UserEffect(l, sender, TransferFrom(from, to, value)).Some? <==>
            && Allowed(l, from, sender, value)
            && from != ZERO_ADDRESS && to != ZERO_ADDRESS && value <= BalanceOf(l, from)
    ensures UserEffect(l, sender, TransferFrom(from, to, value)).Some? ==>
              var l' := UserEffect(l, sender, TransferFrom(from, to, value)).value;
              && UsesAllowance(l, l', from, sender, value)
              && forall a :: BalanceOf(l', a) ==
                             BalanceOf(l, a) - (if a == from then value else 0) + (if a == to then value else 0)
    ensures UserEffect(l, sender, Approve(to, value)).Some? <==> sender != ZERO_ADDRESS && to != ZERO_ADDRESS
    ensures UserEffect(l, sender, Approve(to, value)).Some? ==>
              forall key :: Get(UserEffect(l, sender, Approve(to, value)).value.allowances, key) ==
                            if key == (sender, to) then value else Get(l.allowances, key)
  {
    MoveExactly(l, sender, to, value);
    TransferFromExactly(l, sender, from, to, value);
    ApproveExactly(l, sender, to, value);
  }

  function ReceivedBy(account: Address, op: UserOp): nat {
    match op
    case Transfer(to, value) => if to == account then value else 0
    case TransferFrom(_, to, value) => if to == account then value else 0
    case Approve(_, _) => 0
  }

  function HomeLedger(w: World): Ledger
    requires w.token in w.home.tokens
  {
    w.home.tokens[w.token]
  }

  /** What dispatching a parcel at its target does: None unless the target accepts it. */
  function Delivery(target: State, parcel: Parcel, enoughGas: bool): Option<State> {
    if !enoughGas || parcel.target != target.self then None
    else AcceptEffect(target, target.gateway, parcel.metadata, parcel.args)
  }

  ghost predicate Enabled(w: World, step: Step) {
    match step
    // a manager only ever calls tokens from its own handlers
    case HomeTokenCall(sender, op) => sender != w.home.self
    case RemoteTokenCall(chainId, sender, _) => chainId in w.remotes
    case Lock(sender, _, _, _, _) => sender != w.home.self
    case Burn(chainId, _, _, _, _, _) => chainId in w.remotes
    // the gateway dispatches each relayed parcel at most once, on the chain it is meant for
    case DeliverToRemote(index, _) =>
      index < |w.home.sent| && index !in w.status && w.home.sent[index].targetChainId in w.remotes
    case DeliverToHome(chainId, index, _) =>
      && chainId in w.remotes && index < |w.remotes[chainId].manager.sent| && index !in w.remotes[chainId].status
      && w.remotes[chainId].manager.sent[index].targetChainId == w.home.chainId
    case Deploy(chainId, _, _, _) => chainId != 0 && chainId != w.home.chainId && chainId !in w.remotes
    case Register(chainId) => chainId in w.remotes
    case Enroll(chainId, _) => chainId == w.home.chainId || chainId in w.remotes
    case Message(parcel, _) => parcel.targetChainId == w.home.chainId || parcel.targetChainId in w.remotes
  }

  /** The tokens a step may touch exist; this holds in every world reached below. */
  predicate Ready(w: World) {
    w.token in w.home.tokens && forall c :: c in w.remotes ==> w.remotes[c].token in w.remotes[c].manager.tokens
  }

  function Apply(w: World, step: Step): World
    requires Ready(w) && Enabled(w, step)
  {
    match step
    case HomeTokenCall(sender, op) =>
      var after := UserEffect(HomeLedger(w), sender, op);
      if after.None? then w
      else w.(home := w.home.(tokens := w.home.tokens[w.token := after.value]),
              donated := w.donated + ReceivedBy(w.home.self, op))
    case RemoteTokenCall(chainId, sender, op) =>
      var r := w.remotes[chainId];
      var after := UserEffect(r.manager.tokens[r.token], sender, op);
      if after.None? then w
      else w.(remotes := w.remotes[chainId := r.(manager := r.manager.(tokens := r.manager.tokens[r.token := after.value]))])
    case Lock(sender, token, remoteChainId, recipient, amount) =>
      var after := TransferEffect(w.home, sender, token, remoteChainId, recipient, amount);
      if after.None? then w else w.(home := after.value)
    case Burn(chainId, sender, token, remoteChainId, recipient, amount) =>
      var r := w.remotes[chainId];
      var after := TransferEffect(r.manager, sender, token, remoteChainId, recipient, amount);
      if after.None? then w else w.(remotes := w.remotes[chainId := r.(manager := after.value)])
    case DeliverToRemote(index, enoughGas) =>
      var parcel := w.home.sent[index];
      var r := w.remotes[parcel.targetChainId];
      var after := Delivery(r.manager, parcel, enoughGas);
      if after.None? then w.(status := w.status[index := false])
      else w.(status := w.status[index := true], remotes := w.remotes[parcel.targetChainId := r.(manager := after.value)])
    case DeliverToHome(chainId, index, enoughGas) =>
      var r := w.remotes[chainId];
      var parcel := r.manager.sent[index];
      var after := Delivery(w.home, parcel, enoughGas);
      if after.None? then w.(remotes := w.remotes[chainId := r.(status := r.status[index := false])])
      else w.(home := after.value,
              remotes := w.remotes[chainId := r.(status := r.status[index := true])],
              donated := w.donated + if parcel.args.recipient == w.home.self then parcel.args.amount else 0)
    case Deploy(chainId, manager, gateway, token) =>
      var back := RemoteToken(w.token, w.home.self, w.home.chainId);
      var deployed := State(MintAndBurn, manager, chainId, gateway, false, map[(token, w.home.chainId) := back], map[token := EMPTY], []);
      w.(remotes := w.remotes[chainId := Remote(deployed, token, map[])])
    case Register(chainId) =>
      var r := w.remotes[chainId];
      var there := RemoteToken(r.token, r.manager.self, chainId);
      w.(home := w.home.(remoteTokens := w.home.remoteTokens[(w.token, chainId) := there]))
    case Enroll(chainId, registered) =>
      if chainId == w.home.chainId then w.(home := w.home.(registered := registered))
      else
        var r := w.remotes[chainId];
        w.(remotes := w.remotes[chainId := r.(manager := r.manager.(registered := registered))])
    case Message(parcel, enoughGas) => MessageEffect(w, parcel, enoughGas)
  }

  /** Dispatching a call of `accept` that no manager relayed. */
  function MessageEffect(w: World, parcel: Parcel, enoughGas: bool): World
    requires parcel.targetChainId == w.home.chainId || parcel.targetChainId in w.remotes
  {
    var c, args := parcel.targetChainId, parcel.args;
    if c == w.home.chainId then
      var after := Delivery(w.home, parcel, enoughGas);
      if after.None? then w
      else w.(home := after.value, forged := w.forged + if args.recipient == w.home.self then 0 else args.amount)
    else
      var after := Delivery(w.remotes[c].manager, parcel, enoughGas);
      if after.None? then w
      else w.(remotes := w.remotes[c := w.remotes[c].(manager := after.value)], forged := w.forged + args.amount)
  }

  // ----- what the bridge owes

  /** The amounts of the parcels that were not successfully delivered: waiting or failed. */
  function Unsettled(sent: seq<Parcel>, status: map<nat, bool>): nat {
    if sent == [] then 0
    else
      var last := |sent| - 1;
      Unsettled(sent[..last], status) + if last in status && status[last] then 0 else sent[last].args.amount
  }

  /** The supply on a remote chain and what is on its way home from there. */
  function OwedTo(r: Remote): nat {
    (if r.token in r.manager.tokens then r.manager.tokens[r.token].totalSupply else 0) +
    Unsettled(r.manager.sent, r.status)
  }

  function OwedPerChain(remotes: map<nat, Remote>): map<nat, nat> {
    map c | c in remotes :: OwedTo(remotes[c])
  }

  ghost function Liabilities(w: World): nat {
    Sum(OwedPerChain(w.remotes)) + Unsettled(w.home.sent, w.status)
  }

  function Locked(w: World): nat
    requires w.token in w.home.tokens
  {
    BalanceOf(HomeLedger(w), w.home.self)
  }

  // ----- the invariant

  /** What a remote chain has to know of the home chain. */
  datatype HomeId = HomeId(token: Address, manager: Address, chainId: nat)

  function IdOf(w: World): HomeId {
    HomeId(w.token, w.home.self, w.home.chainId)
  }

  ghost predicate HomeShape(home: State, token: Address) {
    && home.kind == LockAndRelease
    && home.self != ZERO_ADDRESS && home.chainId != 0
    && home.tokens.Keys == {token}
    && Conserved(home.tokens[token])
    && forall spender :: Get(home.tokens[token].allowances, (home.self, spender)) == 0
  }

  /** The home registry points at the managers and tokens of the remote chains. */
  ghost predicate Symmetric(registry: map<(Address, nat), RemoteToken>, token: Address, remotes: map<nat, Remote>) {
    forall key :: key in registry ==>
                    && key.0 == token && key.1 in remotes
                    && registry[key] == RemoteToken(remotes[key.1].token, remotes[key.1].manager.self, key.1)
  }

  /** A parcel towards a chain names that chain's manager and token; the others go to chain 0. */
  ghost predicate OutboundShape(home: HomeId, remotes: map<nat, Remote>, parcel: Parcel) {
    && parcel.metadata == CallMetadata(home.chainId, home.manager)
    && (parcel.targetChainId != 0 ==>
          && parcel.targetChainId in remotes
          && parcel.target == remotes[parcel.targetChainId].manager.self
          && parcel.args.token == remotes[parcel.targetChainId].token)
  }

  ghost predicate Outbound(home: HomeId, remotes: map<nat, Remote>, sent: seq<Parcel>, status: map<nat, bool>) {
    && (forall i :: 0 <= i < |sent| ==> OutboundShape(home, remotes, sent[i]))
    && (forall i :: i in status ==> i < |sent|)
  }

  ghost predicate InboundShape(home: HomeId, chainId: nat, manager: Address, parcel: Parcel) {
    && parcel.metadata == CallMetadata(chainId, manager)
    && (parcel.targetChainId != 0 ==>
          parcel.targetChainId == home.chainId && parcel.target == home.manager && parcel.args.token == home.token)
  }

  ghost predicate RemoteShape(home: HomeId, chainId: nat, r: Remote) {
    && chainId != 0 && chainId != home.chainId
    && r.manager.kind == MintAndBurn && r.manager.chainId == chainId
    && r.manager.tokens.Keys == {r.token}
    && Conserved(r.manager.tokens[r.token])
    && r.manager.remoteTokens == map[(r.token, home.chainId) := RemoteToken(home.token, home.manager, home.chainId)]
    && (forall i :: 0 <= i < |r.manager.sent| ==> InboundShape(home, chainId, r.manager.self, r.manager.sent[i]))
    && (forall i :: i in r.status ==> i < |r.manager.sent|)
  }

  ghost predicate Shape(w: World) {
    && HomeShape(w.home, w.token)
    && Symmetric(w.home.remoteTokens, w.token, w.remotes)
    && Outbound(IdOf(w), w.remotes, w.home.sent, w.status)
    && forall c :: c in w.remotes ==> RemoteShape(IdOf(w), c, w.remotes[c])
  }

  ghost predicate Invariant(w: World) {
    Shape(w) && Locked(w) + w.forged == Liabilities(w) + w.donated
  }

  // ----- sums

  lemma {:induction false} Settle(sent: seq<Parcel>, status: map<nat, bool>, i: nat, success: bool)
    requires i < |sent| && i !in status
    ensures Unsettled(sent, status[i := success]) ==
            Unsettled(sent, status) - if success then sent[i].args.amount else 0
    ensures sent[i].args.amount <= Unsettled(sent, status)
  {
    var last := |sent| - 1;
    if i == last {
      SettleBeyond(sent[..last], status, i, success);
    } else {
      Settle(sent[..last], status, i, success);
    }
  }

  lemma {:induction false} SettleBeyond(sent: seq<Parcel>, status: map<nat, bool>, i: nat, success: bool)
    requires |sent| <= i
    ensures Unsettled(sent, status[i := success]) == Unsettled(sent, status)
  {
    if sent != [] {
      SettleBeyond(sent[..|sent| - 1], status, i, success);
    }
  }

  lemma Dispatched(sent: seq<Parcel>, status: map<nat, bool>, parcel: Parcel)
    requires |sent| !in status
    ensures Unsettled(sent + [parcel], status) == Unsettled(sent, status) + parcel.args.amount
  {
    assert (sent + [parcel])[..|sent|] == sent;
  }

  lemma ChangeOwed(remotes: map<nat, Remote>, chainId: nat, r: Remote)
    ensures Sum(OwedPerChain(remotes[chainId := r])) ==
            Sum(OwedPerChain(remotes)) - (if chainId in remotes then OwedTo(remotes[chainId]) else 0) + OwedTo(r)
    ensures chainId in remotes ==> OwedTo(remotes[chainId]) <= Sum(OwedPerChain(remotes))
  {
    SumUpdate(OwedPerChain(remotes), chainId, OwedTo(r));
    assert OwedPerChain(remotes[chainId := r]) == OwedPerChain(remotes)[chainId := OwedTo(r)];
  }

  // ----- every step keeps the invariant

  lemma UserConserves(l: Ledger, sender: Address, op: UserOp)
    requires Conserved(l) && UserEffect(l, sender, op).Some?
    ensures Conserved(UserEffect(l, sender, op).value)
    ensures UserEffect(l, sender, op).value.totalSupply == l.totalSupply
  {
    match op {
      case Transfer(to, value) => MoveConserves(l, sender, to, value);
      case TransferFrom(from, to, value) => MoveConserves(SpendAllowance(l, from, sender, value).value, from, to, value);
      case Approve(_, _) =>
    }
  }

  /** No user operation takes anything from an account that approved nobody. */
  lemma UserCannotTake(l: Ledger, sender: Address, op: UserOp, manager: Address)
    requires Conserved(l) && sender != manager && UserEffect(l, sender, op).Some?
    requires forall spender :: Get(l.allowances, (manager, spender)) == 0
    ensures var l' := UserEffect(l, sender, op).value;
            && (forall spender :: Get(l'.allowances, (manager, spender)) == 0)
            && BalanceOf(l', manager) == BalanceOf(l, manager) + ReceivedBy(manager, op)
  {
    match op {
      case Transfer(to, value) => MoveConserves(l, sender, to, value);
      case TransferFrom(from, to, value) =>
        var spent := SpendAllowance(l, from, sender, value).value;
        assert from == manager ==> value == 0 by {
          assert Get(l.allowances, (manager, sender)) == 0;
        }
        MoveConserves(spent, from, to, value);
      case Approve(_, _) =>
    }
  }

  lemma LinksKept(home: HomeId, remotes: map<nat, Remote>, chainId: nat, r: Remote,
                  registry: map<(Address, nat), RemoteToken>, sent: seq<Parcel>, status: map<nat, bool>)
    requires chainId in remotes ==> r.token == remotes[chainId].token && r.manager.self == remotes[chainId].manager.self
    requires Symmetric(registry, home.token, remotes) && Outbound(home, remotes, sent, status)
    ensures Symmetric(registry, home.token, remotes[chainId := r]) && Outbound(home, remotes[chainId := r], sent, status)
  {
    forall i | 0 <= i < |sent|
      ensures OutboundShape(home, remotes[chainId := r], sent[i])
    {
      assert OutboundShape(home, remotes, sent[i]);
    }
  }

  /** Replacing a remote chain's state, but neither its manager nor its token, breaks no link to it. */
  lemma ReplaceRemote(w: World, chainId: nat, r: Remote)
    requires Shape(w)
    requires chainId in w.remotes ==> r.token == w.remotes[chainId].token && r.manager.self == w.remotes[chainId].manager.self
    requires RemoteShape(IdOf(w), chainId, r)
    ensures Shape(w.(remotes := w.remotes[chainId := r]))
    ensures Liabilities(w.(remotes := w.remotes[chainId := r])) ==
            Liabilities(w) - (if chainId in w.remotes then OwedTo(w.remotes[chainId]) else 0) + OwedTo(r)
  {
    ChangeOwed(w.remotes, chainId, r);
    var w' := w.(remotes := w.remotes[chainId := r]);
    assert IdOf(w') == IdOf(w);
    assert Symmetric(w'.home.remoteTokens, w'.token, w'.remotes) && Outbound(IdOf(w'), w'.remotes, w'.home.sent, w'.status) by {
      LinksKept(IdOf(w), w.remotes, chainId, r, w.home.remoteTokens, w.home.sent, w.status);
    }
  }

  lemma CountForged(w: World, forged: nat)
    requires Shape(w) && Locked(w) + forged == Liabilities(w) + w.donated
    ensures Invariant(w.(forged := forged))
  {
    assert IdOf(w.(forged := forged)) == IdOf(w);
  }

  /** A remote chain that comes to owe more than before must be made up for by what is forged. */
  lemma ReplaceKeepsBooks(w: World, chainId: nat, r: Remote, forged: nat)
    requires Invariant(w) && chainId in w.remotes
    requires r.token == w.remotes[chainId].token && r.manager.self == w.remotes[chainId].manager.self
    requires RemoteShape(IdOf(w), chainId, r) && OwedTo(r) + w.forged == OwedTo(w.remotes[chainId]) + forged
    ensures Invariant(w.(remotes := w.remotes[chainId := r], forged := forged))
  {
    ReplaceRemote(w, chainId, r);
    var w' := w.(remotes := w.remotes[chainId := r]);
    assert Locked(w') == Locked(w);
    CountForged(w', forged);
  }

  /** Marking a parcel of the home manager. */
  lemma MarkOutbound(w: World, index: nat, success: bool)
    requires Shape(w) && index < |w.home.sent| && index !in w.status
    ensures Shape(w.(status := w.status[index := success]))
    ensures Liabilities(w.(status := w.status[index := success])) ==
            Liabilities(w) - if success then w.home.sent[index].args.amount else 0
  {
    Settle(w.home.sent, w.status, index, success);
  }

  /** Replacing the ledger of the home token. */
  lemma ReplaceHomeLedger(w: World, l: Ledger)
    requires Shape(w) && Conserved(l)
    requires forall spender :: Get(l.allowances, (w.home.self, spender)) == 0
    ensures Shape(w.(home := w.home.(tokens := w.home.tokens[w.token := l])))
    ensures Liabilities(w.(home := w.home.(tokens := w.home.tokens[w.token := l]))) == Liabilities(w)
  {
  }

  lemma HomeTokenKeeps(w: World, sender: Address, op: UserOp)
    requires Invariant(w) && Enabled(w, HomeTokenCall(sender, op))
    ensures Invariant(Apply(w, HomeTokenCall(sender, op)))
  {
    var after := UserEffect(HomeLedger(w), sender, op);
    if after.Some? {
      UserConserves(HomeLedger(w), sender, op);
      UserCannotTake(HomeLedger(w), sender, op, w.home.self);
      ReplaceHomeLedger(w, after.value);
    }
  }

  lemma RemoteTokenKeeps(w: World, chainId: nat, sender: Address, op: UserOp)
    requires Invariant(w) && Enabled(w, RemoteTokenCall(chainId, sender, op))
    ensures Invariant(Apply(w, RemoteTokenCall(chainId, sender, op)))
  {
    var r := w.remotes[chainId];
    assert RemoteShape(IdOf(w), chainId, r);
    if UserEffect(r.manager.tokens[r.token], sender, op).Some? {
      UserConserves(r.manager.tokens[r.token], sender, op);
      ReplaceKeepsBooks(w, chainId, Apply(w, RemoteTokenCall(chainId, sender, op)).remotes[chainId], w.forged);
    }
  }

  /** What a lock does to the home ledger. */
  lemma LockedUp(l: Ledger, manager: Address, from: Address, amount: nat)
    requires Conserved(l) && from != manager && Erc20.TransferFrom(l, manager, from, manager, amount).Some?
    requires forall spender :: Get(l.allowances, (manager, spender)) == 0
    ensures var l' := Erc20.TransferFrom(l, manager, from, manager, amount).value;
            && Conserved(l')
            && (forall spender :: Get(l'.allowances, (manager, spender)) == 0)
            && BalanceOf(l', manager) == BalanceOf(l, manager) + amount
  {
    MoveConserves(SpendAllowance(l, from, manager, amount).value, from, manager, amount);
  }

  /** A parcel added to the outgoing ones is owed from then on. */
  lemma AppendOutbound(w: World, parcel: Parcel)
    requires Shape(w) && OutboundShape(IdOf(w), w.remotes, parcel)
    ensures Shape(w.(home := w.home.(sent := w.home.sent + [parcel])))
    ensures Liabilities(w.(home := w.home.(sent := w.home.sent + [parcel]))) == Liabilities(w) + parcel.args.amount
  {
    Dispatched(w.home.sent, w.status, parcel);
  }

  /** Locking adds the amount both to what is locked and to what is unsettled. */
  lemma LockKeeps(w: World, sender: Address, token: Address, remoteChainId: nat, recipient: Address, amount: nat)
    requires Invariant(w) && Enabled(w, Lock(sender, token, remoteChainId, recipient, amount))
    ensures Invariant(Apply(w, Lock(sender, token, remoteChainId, recipient, amount)))
  {
    var after := TransferEffect(w.home, sender, token, remoteChainId, recipient, amount);
    if after.Some? {
      assert token == w.token;
      LockedUp(HomeLedger(w), w.home.self, sender, amount);
      var parcel := after.value.sent[|w.home.sent|];
      assert OutboundShape(IdOf(w), w.remotes, parcel);
      AppendOutbound(w, parcel);
      ReplaceHomeLedger(w.(home := w.home.(sent := w.home.sent + [parcel])), after.value.tokens[token]);
    }
  }

  /** Burning turns supply into an unsettled amount. */
  lemma BurnKeepsOwed(home: HomeId, chainId: nat, r: Remote, sender: Address, token: Address, remoteChainId: nat,
                      recipient: Address, amount: nat)
    requires RemoteShape(home, chainId, r)
    requires TransferEffect(r.manager, sender, token, remoteChainId, recipient, amount).Some?
    ensures var r' := r.(manager := TransferEffect(r.manager, sender, token, remoteChainId, recipient, amount).value);
            RemoteShape(home, chainId, r') && OwedTo(r') == OwedTo(r)
  {
    var m' := TransferEffect(r.manager, sender, token, remoteChainId, recipient, amount).value;
    assert token == r.token;
    BurnConserves(SpendAllowance(r.manager.tokens[token], sender, r.manager.self, amount).value, sender, amount);
    var parcel := m'.sent[|r.manager.sent|];
    assert InboundShape(home, chainId, r.manager.self, parcel);
    assert m'.sent == r.manager.sent + [parcel];
    Dispatched(r.manager.sent, r.status, parcel);
  }

  lemma BurnKeeps(w: World, chainId: nat, sender: Address, token: Address, remoteChainId: nat, recipient: Address, amount: nat)
    requires Invariant(w) && Enabled(w, Burn(chainId, sender, token, remoteChainId, recipient, amount))
    ensures Invariant(Apply(w, Burn(chainId, sender, token, remoteChainId, recipient, amount)))
  {
    var r := w.remotes[chainId];
    var after := TransferEffect(r.manager, sender, token, remoteChainId, recipient, amount);
    if after.Some? {
      BurnKeepsOwed(IdOf(w), chainId, r, sender, token, remoteChainId, recipient, amount);
      ReplaceKeepsBooks(w, chainId, r.(manager := after.value), w.forged);
    }
  }

  /** A successful delivery turns an unsettled amount into supply. */
  lemma DeliverToRemoteKeeps(w: World, index: nat, enoughGas: bool)
    requires Invariant(w) && Enabled(w, DeliverToRemote(index, enoughGas))
    ensures Invariant(Apply(w, DeliverToRemote(index, enoughGas)))
  {
    var parcel := w.home.sent[index];
    var r := w.remotes[parcel.targetChainId];
    assert OutboundShape(IdOf(w), w.remotes, parcel) && RemoteShape(IdOf(w), parcel.targetChainId, r);
    var after := Delivery(r.manager, parcel, enoughGas);
    MarkOutbound(w, index, after.Some?);
    if after.Some? {
      MintConserves(r.manager.tokens[r.token], parcel.args.recipient, parcel.args.amount);
      ReplaceRemote(w.(status := w.status[index := true]), parcel.targetChainId, r.(manager := after.value));
    }
  }

  lemma MarkInbound(w: World, chainId: nat, index: nat, success: bool)
    requires Shape(w) && chainId in w.remotes
    requires index < |w.remotes[chainId].manager.sent| && index !in w.remotes[chainId].status
    ensures var r := w.remotes[chainId];
            var w' := w.(remotes := w.remotes[chainId := r.(status := r.status[index := success])]);
            && Shape(w')
            && Liabilities(w') == Liabilities(w) - if success then r.manager.sent[index].args.amount else 0
  {
    var r := w.remotes[chainId];
    assert RemoteShape(IdOf(w), chainId, r);
    Settle(r.manager.sent, r.status, index, success);
    ReplaceRemote(w, chainId, r.(status := r.status[index := success]));
  }

  /** Paying out an amount that was just settled balances the books again. */
  lemma PayOut(w: World, recipient: Address, amount: nat)
    requires Shape(w) && Locked(w) + w.forged == Liabilities(w) + amount + w.donated
    requires Move(HomeLedger(w), w.home.self, recipient, amount).Some?
    ensures Invariant(w.(home := w.home.(tokens := w.home.tokens[w.token := Move(HomeLedger(w), w.home.self, recipient, amount).value]),
                         donated := w.donated + if recipient == w.home.self then amount else 0))
  {
    MoveConserves(HomeLedger(w), w.home.self, recipient, amount);
    ReplaceHomeLedger(w, Move(HomeLedger(w), w.home.self, recipient, amount).value);
  }

  /** A release pays out exactly the amount it settles. */
  lemma DeliverToHomeKeeps(w: World, chainId: nat, index: nat, enoughGas: bool)
    requires Invariant(w) && Enabled(w, DeliverToHome(chainId, index, enoughGas))
    ensures Invariant(Apply(w, DeliverToHome(chainId, index, enoughGas)))
  {
    var r := w.remotes[chainId];
    var parcel := r.manager.sent[index];
    var after := Delivery(w.home, parcel, enoughGas);
    var w1 := w.(remotes := w.remotes[chainId := r.(status := r.status[index := after.Some?])]);
    MarkInbound(w, chainId, index, after.Some?);
    if after.Some? {
      assert parcel.args.token == w.token by {
        assert RemoteShape(IdOf(w), chainId, r) && InboundShape(IdOf(w), chainId, r.manager.self, parcel);
      }
      PayOut(w1, parcel.args.recipient, parcel.args.amount);
    }
  }

  lemma DeployKeeps(w: World, chainId: nat, manager: Address, gateway: Address, token: Address)
    requires Invariant(w) && Enabled(w, Deploy(chainId, manager, gateway, token))
    ensures Invariant(Apply(w, Deploy(chainId, manager, gateway, token)))
  {
    ReplaceRemote(w, chainId, Apply(w, Deploy(chainId, manager, gateway, token)).remotes[chainId]);
  }

  /** Changing the home manager's routes or its registration leaves what is locked and owed. */
  lemma RewireHome(w: World, registered: bool, routes: map<(Address, nat), RemoteToken>)
    requires Invariant(w) && Symmetric(routes, w.token, w.remotes)
    ensures Invariant(w.(home := w.home.(registered := registered, remoteTokens := routes)))
  {
    var w' := w.(home := w.home.(registered := registered, remoteTokens := routes));
    assert IdOf(w') == IdOf(w) && Locked(w') == Locked(w) && Liabilities(w') == Liabilities(w);
  }

  lemma RegisterKeeps(w: World, chainId: nat)
    requires Invariant(w) && Enabled(w, Register(chainId))
    ensures Invariant(Apply(w, Register(chainId)))
  {
    InvariantIsReady(w);
    RegistryExtended(w.home.remoteTokens, w.token, w.remotes, chainId);
    var w' := Apply(w, Register(chainId));
    RewireHome(w, w.home.registered, w'.home.remoteTokens);
    assert w'.home == w.home.(registered := w.home.registered, remoteTokens := w'.home.remoteTokens);
  }

  lemma RegistryExtended(registry: map<(Address, nat), RemoteToken>, token: Address, remotes: map<nat, Remote>, chainId: nat)
    requires Symmetric(registry, token, remotes) && chainId in remotes
    ensures Symmetric(registry[(token, chainId) := RemoteToken(remotes[chainId].token, remotes[chainId].manager.self, chainId)],
                      token, remotes)
  {
  }

  lemma EnrollKeeps(w: World, chainId: nat, registered: bool)
    requires Invariant(w) && Enabled(w, Enroll(chainId, registered))
    ensures Invariant(Apply(w, Enroll(chainId, registered)))
  {
    if chainId == w.home.chainId {
      RewireHome(w, registered, w.home.remoteTokens);
    } else {
      var r := w.remotes[chainId];
      assert RemoteShape(IdOf(w), chainId, r);
      ReplaceKeepsBooks(w, chainId, r.(manager := r.manager.(registered := registered)), w.forged);
    }
  }

  /** What a message that no manager relayed pays out at home is settled with nobody. */
  lemma MessageHomeKeeps(w: World, parcel: Parcel, enoughGas: bool)
    requires Invariant(w) && parcel.targetChainId == w.home.chainId
    ensures Invariant(MessageEffect(w, parcel, enoughGas))
  {
    if Delivery(w.home, parcel, enoughGas).Some? {
      var l := Move(HomeLedger(w), w.home.self, parcel.args.recipient, parcel.args.amount).value;
      MoveConserves(HomeLedger(w), w.home.self, parcel.args.recipient, parcel.args.amount);
      ReplaceHomeLedger(w, l);
      var paid := w.(home := w.home.(tokens := w.home.tokens[w.token := l]));
      var forged := w.forged + if parcel.args.recipient == w.home.self then 0 else parcel.args.amount;
      assert MessageEffect(w, parcel, enoughGas) == paid.(forged := forged);
      CountForged(paid, forged);
    }
  }

  /** What it mints on a remote chain is owed on top. */
  lemma MintOwed(home: HomeId, chainId: nat, r: Remote, parcel: Parcel, enoughGas: bool)
    requires RemoteShape(home, chainId, r) && Delivery(r.manager, parcel, enoughGas).Some?
    ensures var r' := r.(manager := Delivery(r.manager, parcel, enoughGas).value);
            RemoteShape(home, chainId, r') && r'.manager.self == r.manager.self && OwedTo(r') == OwedTo(r) + parcel.args.amount
  {
    MintConserves(r.manager.tokens[r.token], parcel.args.recipient, parcel.args.amount);
  }

  lemma MessageRemoteKeeps(w: World, parcel: Parcel, enoughGas: bool)
    requires Invariant(w) && parcel.targetChainId in w.remotes
    ensures Invariant(MessageEffect(w, parcel, enoughGas))
  {
    var chainId := parcel.targetChainId;
    var r := w.remotes[chainId];
    assert RemoteShape(IdOf(w), chainId, r);
    if Delivery(r.manager, parcel, enoughGas).Some? {
      MintOwed(IdOf(w), chainId, r, parcel, enoughGas);
      ReplaceKeepsBooks(w, chainId, r.(manager := Delivery(r.manager, parcel, enoughGas).value), w.forged + parcel.args.amount);
    }
  }

  lemma StepKeeps(w: World, step: Step)
    requires Invariant(w) && Enabled(w, step)
    ensures Invariant(Apply(w, step))
  {
    match step {
      case HomeTokenCall(sender, op) => HomeTokenKeeps(w, sender, op);
      case RemoteTokenCall(chainId, sender, op) => RemoteTokenKeeps(w, chainId, sender, op);
      case Lock(sender, token, remoteChainId, recipient, amount) => LockKeeps(w, sender, token, remoteChainId, recipient, amount);
      case Burn(chainId, sender, token, remoteChainId, recipient, amount) =>
        BurnKeeps(w, chainId, sender, token, remoteChainId, recipient, amount);
      case DeliverToRemote(index, enoughGas) => DeliverToRemoteKeeps(w, index, enoughGas);
      case DeliverToHome(chainId, index, enoughGas) => DeliverToHomeKeeps(w, chainId, index, enoughGas);
      case Deploy(chainId, manager, gateway, token) => DeployKeeps(w, chainId, manager, gateway, token);
      case Register(chainId) => RegisterKeeps(w, chainId);
      case Enroll(chainId, registered) => EnrollKeeps(w, chainId, registered);
      case Message(parcel, enoughGas) =>
        if parcel.targetChainId == w.home.chainId {
          MessageHomeKeeps(w, parcel, enoughGas);
        } else {
          MessageRemoteKeeps(w, parcel, enoughGas);
        }
    }
  }

  // ----- runs

  /** The home token is out and nothing is locked or registered yet. */
  ghost predicate Initial(w: World) {
    && HomeShape(w.home, w.token) && w.home.remoteTokens == map[] && w.home.sent == []
    && w.status == map[] && w.remotes == map[]
    && w.donated == Locked(w) && w.forged == 0
  }

  /** The worlds reached by taking the steps in order, skipping those not enabled. */
  ghost function Run(w: World, steps: seq<Step>): World {
    if steps == [] then w
    else
      var before := Run(w, steps[..|steps| - 1]);
      if Ready(before) && Enabled(before, steps[|steps| - 1]) then Apply(before, steps[|steps| - 1]) else before
  }

  lemma {:induction false} RunKeepsInvariant(w: World, steps: seq<Step>)
    requires Invariant(w)
    ensures Ready(Run(w, steps)) && Invariant(Run(w, steps))
  {
    if steps == [] {
      InvariantIsReady(w);
    } else {
      RunKeepsInvariant(w, steps[..|steps| - 1]);
      var before, step := Run(w, steps[..|steps| - 1]), steps[|steps| - 1];
      if Enabled(before, step) {
        StepKeeps(before, step);
      }
      InvariantIsReady(Run(w, steps));
    }
  }

  lemma InvariantIsReady(w: World)
    requires Invariant(w)
    ensures Ready(w)
  {
    forall c | c in w.remotes
      ensures w.remotes[c].token in w.remotes[c].manager.tokens
    {
      assert RemoteShape(IdOf(w), c, w.remotes[c]);
    }
  }

  lemma InitialIsSound(w: World)
    requires Initial(w)
    ensures Invariant(w)
  {
    assert OwedPerChain(w.remotes) == map[];
  }

  /** Over every run, what is locked and what forgeries took is exactly what is bridged out, under way
      or stuck, plus gifts. So the bridge can pay all it owes exactly when forgeries took no more than
      was given. */
  lemma Solvency(w: World, steps: seq<Step>)
    requires Initial(w)
    ensures var w' := Run(w, steps);
            && w'.token in w'.home.tokens
            && Locked(w') + w'.forged == Liabilities(w') + w'.donated
            && (Liabilities(w') <= Locked(w') <==> w'.forged <= w'.donated)
  {
    InitialIsSound(w);
    RunKeepsInvariant(w, steps);
  }

  // ----- messages of other senders

  /** Metadata as the gateways pack it for any sender but a manager of the bridge. */
  ghost predicate Foreign(w: World, metadata: CallMetadata) {
    && metadata.sourceChainId != 0
    && metadata != CallMetadata(w.home.chainId, w.home.self)
    && forall c :: c in w.remotes ==> metadata != CallMetadata(c, w.remotes[c].manager.self)
  }

  /** The target can pay what the message asks for. */
  predicate Payable(w: World, args: AcceptArgs, chainId: nat)
    requires w.token in w.home.tokens
    requires chainId in w.remotes ==> w.remotes[chainId].token in w.remotes[chainId].manager.tokens
  {
    && args.recipient != ZERO_ADDRESS
    && if chainId in w.remotes
       then var r := w.remotes[chainId];
            args.token == r.token && r.manager.tokens[r.token].totalSupply + args.amount < UINT256_LIMIT
       else args.token == w.token && args.recipient != w.home.self && args.amount <= Locked(w)
  }

  lemma MessageTakesAtHomeIff(w: World, parcel: Parcel, enoughGas: bool)
    requires Invariant(w) && parcel.targetChainId == w.home.chainId
    ensures Ready(w) && w.home.chainId !in w.remotes
    ensures MessageEffect(w, parcel, enoughGas).forged > w.forged <==>
            && enoughGas && parcel.args.amount > 0 && parcel.target == w.home.self
            && Payable(w, parcel.args, parcel.targetChainId) && PassesFor(w.home, parcel.args.token, parcel.metadata)
  {
    InvariantIsReady(w);
    assert w.home.chainId in w.remotes ==> RemoteShape(IdOf(w), w.home.chainId, w.remotes[w.home.chainId]);
  }

  /** Exactly which messages of other senders take something out of the bridge. */
  lemma MessageTakesIff(w: World, parcel: Parcel, enoughGas: bool)
    requires Invariant(w) && Enabled(w, Message(parcel, enoughGas))
    ensures Ready(w)
    ensures var c := parcel.targetChainId;
            var target := if c in w.remotes then w.remotes[c].manager else w.home;
            MessageEffect(w, parcel, enoughGas).forged > w.forged <==>
            && enoughGas && parcel.args.amount > 0 && parcel.target == target.self
            && Payable(w, parcel.args, c) && PassesFor(target, parcel.args.token, parcel.metadata)
  {
    InvariantIsReady(w);
    if parcel.targetChainId in w.remotes {
      assert RemoteShape(IdOf(w), parcel.targetChainId, w.remotes[parcel.targetChainId]);
    } else {
      MessageTakesAtHomeIff(w, parcel, enoughGas);
    }
  }

  /** A message whose metadata the gateways packed is refused wherever it goes. */
  lemma ForeignIsRefused(w: World, parcel: Parcel, enoughGas: bool)
    requires Invariant(w) && Enabled(w, Message(parcel, enoughGas)) && Foreign(w, parcel.metadata)
    ensures MessageEffect(w, parcel, enoughGas) == w
  {
    InvariantIsReady(w);
    if parcel.targetChainId in w.remotes {
      assert RemoteShape(IdOf(w), parcel.targetChainId, w.remotes[parcel.targetChainId]);
    }
  }

  /** The messages of other senders among the steps bear metadata that the gateways packed. */
  ghost predicate HonestlyPacked(w: World, steps: seq<Step>) {
    forall k :: 0 <= k < |steps| && steps[k].Message? ==> Foreign(Run(w, steps[..k]), steps[k].parcel.metadata)
  }

  lemma StepForgesNothing(w: World, step: Step)
    requires Invariant(w) && Enabled(w, step) && (step.Message? ==> Foreign(w, step.parcel.metadata))
    ensures Ready(w) && Apply(w, step).forged == w.forged
  {
    InvariantIsReady(w);
    if step.Message? {
      ForeignIsRefused(w, step.parcel, step.enoughGas);
    }
  }

  lemma {:induction false} NothingForged(w: World, steps: seq<Step>)
    requires Invariant(w) && HonestlyPacked(w, steps)
    ensures Run(w, steps).forged == w.forged
  {
    if steps != [] {
      var n := |steps| - 1;
      assert HonestlyPacked(w, steps[..n]) by {
        assert forall k :: 0 <= k < n ==> steps[..n][..k] == steps[..k] && steps[..n][k] == steps[k];
      }
      NothingForged(w, steps[..n]);
      RunKeepsInvariant(w, steps[..n]);
      if Enabled(Run(w, steps[..n]), steps[n]) {
        StepForgesNothing(Run(w, steps[..n]), steps[n]);
      }
    }
  }

  /** Whatever other senders relay with metadata, nothing is forged and what is locked covers what is owed. */
  lemma PackedMetadataKeepsTheBooks(w: World, steps: seq<Step>)
    requires Initial(w) && HonestlyPacked(w, steps)
    ensures var w' := Run(w, steps);
            w'.forged == 0 && w'.token in w'.home.tokens && Locked(w') == Liabilities(w') + w'.donated
  {
    InitialIsSound(w);
    NothingForged(w, steps);
    Solvency(w, steps);
  }

  // ----- what a delivery depends on

  /** A release fails only for want of gas, when the route home is not registered or the recipient is
      the zero address; it never lacks funds unless forgeries took more than was given. */
  lemma ReleaseIsFunded(w: World, chainId: nat, index: nat, enoughGas: bool)
    requires Invariant(w) && Enabled(w, DeliverToHome(chainId, index, enoughGas))
    ensures Apply(w, DeliverToHome(chainId, index, enoughGas)).remotes[chainId].status[index] <==>
            && enoughGas
            && (w.token, chainId) in w.home.remoteTokens
            && w.remotes[chainId].manager.sent[index].args.recipient != ZERO_ADDRESS
            && w.remotes[chainId].manager.sent[index].args.amount <= Locked(w)
    ensures w.forged <= w.donated ==> w.remotes[chainId].manager.sent[index].args.amount <= Locked(w)
  {
    var r := w.remotes[chainId];
    assert RemoteShape(IdOf(w), chainId, r) && InboundShape(IdOf(w), chainId, r.manager.self, r.manager.sent[index]);
    Settle(r.manager.sent, r.status, index, true);
    ChangeOwed(w.remotes, chainId, r);
  }

  /** A mint fails only for want of gas or when the recipient is the zero address; it never overflows
      unless forgeries took more than was given. */
  lemma MintNeverOverflows(w: World, index: nat, enoughGas: bool)
    requires Invariant(w) && Enabled(w, DeliverToRemote(index, enoughGas))
    ensures Ready(w)
    ensures var args := w.home.sent[index].args;
            var r := w.remotes[w.home.sent[index].targetChainId];
            && (Apply(w, DeliverToRemote(index, enoughGas)).status[index] <==>
                && enoughGas && args.recipient != ZERO_ADDRESS
                && r.manager.tokens[r.token].totalSupply + args.amount < UINT256_LIMIT)
            && (w.forged <= w.donated ==> r.manager.tokens[r.token].totalSupply + args.amount < UINT256_LIMIT)
  {
    var parcel := w.home.sent[index];
    var r := w.remotes[parcel.targetChainId];
    assert OutboundShape(IdOf(w), w.remotes, parcel) && RemoteShape(IdOf(w), parcel.targetChainId, r);
    Settle(w.home.sent, w.status, index, true);
    ChangeOwed(w.remotes, parcel.targetChainId, r);
    BalanceWithinSupply(HomeLedger(w), w.home.self);
  }

  /** A transfer at home is taken whether or not its route is registered; its parcel can be delivered
      exactly when it is. Otherwise the amount stays locked, owed to a chain that does not exist. */
  lemma LockIsDeliverableIff(w: World, sender: Address, remoteChainId: nat, recipient: Address, amount: nat)
    requires Invariant(w) && Enabled(w, Lock(sender, w.token, remoteChainId, recipient, amount))
    requires TransferEffect(w.home, sender, w.token, remoteChainId, recipient, amount).Some?
    ensures var w' := Apply(w, Lock(sender, w.token, remoteChainId, recipient, amount));
            Enabled(w', DeliverToRemote(|w.home.sent|, true)) <==> (w.token, remoteChainId) in w.home.remoteTokens
  {
    assert 0 !in w.remotes by {
      assert 0 in w.remotes ==> RemoteShape(IdOf(w), 0, w.remotes[0]);
    }
  }

  // ----- who pays and who is paid

  /** A transfer at home takes the amount from its sender alone, and its parcel carries it to the
      recipient on the registered chain. */
  lemma LockTakesAndSends(w: World, sender: Address, remoteChainId: nat, recipient: Address, amount: nat)
    requires Invariant(w) && Enabled(w, Lock(sender, w.token, remoteChainId, recipient, amount))
    requires TransferEffect(w.home, sender, w.token, remoteChainId, recipient, amount).Some?
    requires (w.token, remoteChainId) in w.home.remoteTokens
    ensures var w' := Apply(w, Lock(sender, w.token, remoteChainId, recipient, amount));
            && w.token in w'.home.tokens
            && (forall a :: BalanceOf(HomeLedger(w'), a) ==
                            BalanceOf(HomeLedger(w), a) - (if a == sender then amount else 0) + (if a == w.home.self then amount else 0))
            && |w'.home.sent| == |w.home.sent| + 1
            && var parcel := w'.home.sent[|w.home.sent|];
               parcel.targetChainId == remoteChainId && parcel.args.recipient == recipient && parcel.args.amount == amount
  {
    MoveConserves(SpendAllowance(HomeLedger(w), sender, w.home.self, amount).value, sender, w.home.self, amount);
  }

  /** A successful delivery on a remote chain credits the recipient with the amount, and nobody else. */
  lemma RemoteDeliveryCredits(w: World, index: nat, recipient: Address, amount: nat)
    requires Invariant(w) && Enabled(w, DeliverToRemote(index, true))
    requires w.home.sent[index].args.recipient == recipient && w.home.sent[index].args.amount == amount
    requires recipient != ZERO_ADDRESS && w.forged <= w.donated
    ensures var c := w.home.sent[index].targetChainId;
            var w' := Apply(w, DeliverToRemote(index, true));
            && Ready(w) && Ready(w') && c in w'.remotes && w'.remotes[c].token == w.remotes[c].token
            && forall a :: BalanceOf(w'.remotes[c].manager.tokens[w.remotes[c].token], a) ==
                           BalanceOf(w.remotes[c].manager.tokens[w.remotes[c].token], a) + (if a == recipient then amount else 0)
  {
    InvariantIsReady(w);
    DeliverToRemoteKeeps(w, index, true);
    InvariantIsReady(Apply(w, DeliverToRemote(index, true)));
    MintNeverOverflows(w, index, true);
    var parcel := w.home.sent[index];
    assert OutboundShape(IdOf(w), w.remotes, parcel);
    MintConserves(w.remotes[parcel.targetChainId].manager.tokens[parcel.args.token], recipient, amount);
  }

  /** A transfer on a remote chain takes the amount from its sender alone, and its parcel carries it home. */
  lemma BurnTakesAndSends(w: World, chainId: nat, sender: Address, recipient: Address, amount: nat)
    requires Invariant(w) && chainId in w.remotes
    requires TransferEffect(w.remotes[chainId].manager, sender, w.remotes[chainId].token, w.home.chainId, recipient, amount).Some?
    ensures var r := w.remotes[chainId];
            var m' := TransferEffect(r.manager, sender, r.token, w.home.chainId, recipient, amount).value;
            && Ready(w) && r.token in m'.tokens
            && (forall a :: BalanceOf(m'.tokens[r.token], a) ==
                            BalanceOf(r.manager.tokens[r.token], a) - (if a == sender then amount else 0))
            && |m'.sent| == |r.manager.sent| + 1
            && var parcel := m'.sent[|r.manager.sent|];
               parcel.targetChainId == w.home.chainId && parcel.args.recipient == recipient && parcel.args.amount == amount
  {
    InvariantIsReady(w);
    var r := w.remotes[chainId];
    assert RemoteShape(IdOf(w), chainId, r);
    BurnConserves(SpendAllowance(r.manager.tokens[r.token], sender, r.manager.self, amount).value, sender, amount);
  }

  lemma ReleaseMoves(w: World, chainId: nat, index: nat)
    requires Invariant(w) && Enabled(w, DeliverToHome(chainId, index, true))
    requires (w.token, chainId) in w.home.remoteTokens
    requires w.remotes[chainId].manager.sent[index].args.recipient != ZERO_ADDRESS && w.forged <= w.donated
    ensures var args := w.remotes[chainId].manager.sent[index].args;
            var moved := Move(HomeLedger(w), w.home.self, args.recipient, args.amount);
            && Ready(w) && moved.Some?
            && Apply(w, DeliverToHome(chainId, index, true)).home == w.home.(tokens := w.home.tokens[w.token := moved.value])
  {
    InvariantIsReady(w);
    ReleaseIsFunded(w, chainId, index, true);
    assert RemoteShape(IdOf(w), chainId, w.remotes[chainId]);
    assert InboundShape(IdOf(w), chainId, w.remotes[chainId].manager.self, w.remotes[chainId].manager.sent[index]);
  }

  /** A successful delivery at home pays the recipient the amount out of what is locked. */
  lemma HomeDeliveryPays(w: World, chainId: nat, index: nat)
    requires Invariant(w) && Enabled(w, DeliverToHome(chainId, index, true))
    requires (w.token, chainId) in w.home.remoteTokens
    requires w.remotes[chainId].manager.sent[index].args.recipient != ZERO_ADDRESS && w.forged <= w.donated
    ensures var args := w.remotes[chainId].manager.sent[index].args;
            var w' := Apply(w, DeliverToHome(chainId, index, true));
            && Ready(w) && Ready(w')
            && forall a :: BalanceOf(HomeLedger(w'), a) ==
                           BalanceOf(HomeLedger(w), a)
                           - (if a == w.home.self then args.amount else 0) + (if a == args.recipient then args.amount else 0)
  {
    InvariantIsReady(w);
    ReleaseMoves(w, chainId, index);
    var args := w.remotes[chainId].manager.sent[index].args;
    MoveConserves(HomeLedger(w), w.home.self, args.recipient, args.amount);
    var w' := Apply(w, DeliverToHome(chainId, index, true));
    assert Ready(w') by {
      DeliverToHomeKeeps(w, chainId, index, true);
      InvariantIsReady(w');
    }
  }
}
