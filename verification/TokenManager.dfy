/** The token managers: one locks and releases a home token, its counterparts burn and mint. */
module TokenManager {
  import opened Base
  import opened Erc20

  datatype RemoteToken = RemoteToken(token: Address, tokenManager: Address, chainId: nat)

  /** What an unregistered entry reads as. */
  const UNREGISTERED: RemoteToken := RemoteToken(ZERO_ADDRESS, ZERO_ADDRESS, 0)

  datatype AcceptArgs = AcceptArgs(token: Address, recipient: Address, amount: nat)

  /** Packed by the relaying gateway: the chain it runs on and its caller. */
  datatype CallMetadata = CallMetadata(sourceChainId: nat, sender: Address)

  /** A relayed call of `accept`. */
  datatype Parcel = Parcel(targetChainId: nat, target: Address, metadata: CallMetadata, args: AcceptArgs)

  datatype Kind = LockAndRelease | MintAndBurn

  /** A manager, whether its gateway has registered it as a sender, the token ledgers it acts on and
      the parcels its gateway relayed for it, oldest first. */
  datatype State = State(
    kind: Kind, self: Address, chainId: nat, gateway: Address, registered: bool,
    remoteTokens: map<(Address, nat), RemoteToken>,
    tokens: map<Address, Ledger>,
    sent: seq<Parcel>)

  function RemoteTokenOf(m: State, token: Address, remoteChainId: nat): RemoteToken {
    if (token, remoteChainId) in m.remoteTokens then m.remoteTokens[(token, remoteChainId)] else UNREGISTERED
  }

  function Updated(m: State, token: Address, ledger: Option<Ledger>): Option<State> {
    if ledger.None? then None else Some(m.(tokens := m.tokens[token := ledger.value]))
  }

  function HandleTransferEffect(m: State, token: Address, from: Address, amount: nat): Option<State> {
    if token !in m.tokens then None
    else
      match m.kind
      case LockAndRelease => Updated(m, token, TransferFrom(m.tokens[token], m.self, from, m.self, amount))
      case MintAndBurn => Updated(m, token, BurnFrom(m.tokens[token], m.self, from, amount))
  }

  function HandleAcceptEffect(m: State, token: Address, recipient: Address, amount: nat): Option<State> {
    if token !in m.tokens then None
    else
      match m.kind
      case LockAndRelease => Updated(m, token, Move(m.tokens[token], m.self, recipient, amount))
      case MintAndBurn => Updated(m, token, Mint(m.tokens[token], recipient, amount))
  }

  /** The call of `accept` that a transfer relays. */
  function ParcelFor(m: State, token: Address, remoteChainId: nat, recipient: Address, amount: nat): Parcel {
    var remote := RemoteTokenOf(m, token, remoteChainId);
    Parcel(remote.chainId, remote.tokenManager, CallMetadata(m.chainId, m.self), AcceptArgs(remote.token, recipient, amount))
  }

  /** An unregistered route is not refused: the parcel then goes to chain 0. A gateway that has not
      registered the manager refuses to relay, which reverts the payment too. */
  function TransferEffect(m: State, sender: Address, token: Address, remoteChainId: nat, recipient: Address,
                          amount: nat): Option<State> {
    var paid := HandleTransferEffect(m, token, sender, amount);
    if paid.None? || !m.registered then None
    else Some(paid.value.(sent := m.sent + [ParcelFor(m, token, remoteChainId, recipient, amount)]))
  }

  function AcceptEffect(m: State, caller: Address, metadata: CallMetadata, args: AcceptArgs): Option<State> {
    var remote := RemoteTokenOf(m, args.token, metadata.sourceChainId);
    if caller != m.gateway || metadata.sourceChainId != remote.chainId || metadata.sender != remote.tokenManager then None
    else HandleAcceptEffect(m, args.token, args.recipient, args.amount)
  }

  // ----- who may do what

  /** The metadata an `accept` takes for that of a counterpart: a registered one, or all zero, which
      is what an unregistered route compares equal to. */
  predicate PassesFor(m: State, token: Address, metadata: CallMetadata) {
    if (token, metadata.sourceChainId) in m.remoteTokens
    then var remote := m.remoteTokens[(token, metadata.sourceChainId)];
         remote.chainId == metadata.sourceChainId && remote.tokenManager == metadata.sender
    else metadata == CallMetadata(0, ZERO_ADDRESS)
  }

  /** A lock-and-release manager pays out of its balance, a mint-and-burn manager mints. */
  predicate CanPayOut(m: State, args: AcceptArgs) {
    && args.token in m.tokens && args.recipient != ZERO_ADDRESS
    && match m.kind
       case LockAndRelease => m.self != ZERO_ADDRESS && args.amount <= BalanceOf(m.tokens[args.token], m.self)
       case MintAndBurn => m.tokens[args.token].totalSupply + args.amount < UINT256_LIMIT
  }

  /** The manager may take the amount from the sender, who has it. */
  predicate CanTake(m: State, token: Address, from: Address, amount: nat) {
    && token in m.tokens && from != ZERO_ADDRESS
    && Allowed(m.tokens[token], from, m.self, amount) && amount <= BalanceOf(m.tokens[token], from)
    && (m.kind.LockAndRelease? ==> m.self != ZERO_ADDRESS)
  }

  class Manager {
    const kind: Kind
    const self: Address
    const chainId: nat
    const owner: Address
    var gateway: Address
    var registered: bool
    var remoteTokens: map<(Address, nat), RemoteToken>
    var tokens: map<Address, Ledger>
    var sent: seq<Parcel>

    ghost function View(): State
      reads this
    {
      State(kind, self, chainId, gateway, registered, remoteTokens, tokens, sent)
    }

    constructor (kind: Kind, self: Address, chainId: nat, owner: Address, gateway: Address, tokens: map<Address, Ledger>)
      ensures View() == State(kind, self, chainId, gateway, false, map[], tokens, [])
      ensures this.owner == owner
    {
      this.kind, this.self, this.chainId, this.owner, this.gateway := kind, self, chainId, owner, gateway;
      registered, remoteTokens, this.tokens, sent := false, map[], tokens, [];
    }

    /** The gateway's owner registers or unregisters the manager as a sender. */
    method Enroll(registered: bool)
      modifies this`registered
      ensures this.registered == registered
    {
      this.registered := registered;
    }

    method RegisterToken(sender: Address, token: Address, remote: RemoteToken) returns (ok: bool)
      modifies this`remoteTokens
      ensures ok <==> sender == owner
      ensures remoteTokens == if ok then old(remoteTokens)[(token, remote.chainId) := remote] else old(remoteTokens)
    {
      ok := sender == owner;
      if ok {
        remoteTokens := remoteTokens[(token, remote.chainId) := remote];
      }
    }

    /** `deployed` is the address at which the new bridged token comes to live. */
    method DeployToken(sender: Address, deployed: Address, remote: RemoteToken) returns (ok: bool)
      requires kind == MintAndBurn && deployed !in tokens
      modifies this
      ensures ok <==> sender == owner
      ensures View() == if ok
                        then old(View()).(tokens := old(tokens)[deployed := EMPTY],
                                          remoteTokens := old(remoteTokens)[(deployed, remote.chainId) := remote])
                        else old(View())
    {
      ok := sender == owner;
      if ok {
        tokens := tokens[deployed := EMPTY];
        var _ := RegisterToken(sender, deployed, remote);
      }
    }

    method Transfer(sender: Address, token: Address, remoteChainId: nat, recipient: Address, amount: nat) returns (ok: bool)
      modifies this
      ensures ok <==> TransferEffect(old(View()), sender, token, remoteChainId, recipient, amount).Some?
      ensures ok ==> old(registered) && token in old(tokens)
      ensures View() == if ok then TransferEffect(old(View()), sender, token, remoteChainId, recipient, amount).value
                        else old(View())
    {
      var remote := RemoteToken(ZERO_ADDRESS, ZERO_ADDRESS, 0);
      if (token, remoteChainId) in remoteTokens {
        remote := remoteTokens[(token, remoteChainId)];
      }
      var saved := tokens;
      ok := HandleTransfer(token, sender, amount);
      if !ok {
        return;
      }
      ok := registered;
      if !ok {
        tokens := saved;
      } else {
        sent := sent + [Parcel(remote.chainId, remote.tokenManager, CallMetadata(chainId, self),
                               AcceptArgs(remote.token, recipient, amount))];
      }
    }

    method Accept(caller: Address, metadata: CallMetadata, args: AcceptArgs) returns (ok: bool)
      modifies this`tokens
      ensures ok <==> caller == gateway && PassesFor(old(View()), args.token, metadata) && CanPayOut(old(View()), args)
      ensures ok <==> AcceptEffect(old(View()), caller, metadata, args).Some?
      ensures View() == if ok then AcceptEffect(old(View()), caller, metadata, args).value else old(View())
    {
      if caller != gateway {
        return false;
      }
      var remote := UNREGISTERED;
      if (args.token, metadata.sourceChainId) in remoteTokens {
        remote := remoteTokens[(args.token, metadata.sourceChainId)];
      }
      if metadata.sourceChainId != remote.chainId || metadata.sender != remote.tokenManager {
        return false;
      }
      ok := HandleAccept(args.token, args.recipient, args.amount);
    }

    method HandleTransfer(token: Address, from: Address, amount: nat) returns (ok: bool)
      modifies this`tokens
      ensures ok <==> HandleTransferEffect(old(View()), token, from, amount).Some?
      ensures View() == if ok then HandleTransferEffect(old(View()), token, from, amount).value else old(View())
    {
      if token !in tokens {
        return false;
      }
      match kind {
        case LockAndRelease => ok := Commit(token, TransferFrom(tokens[token], self, from, self, amount));
        case MintAndBurn => ok := Commit(token, BurnFrom(tokens[token], self, from, amount));
      }
    }

    method HandleAccept(token: Address, recipient: Address, amount: nat) returns (ok: bool)
      modifies this`tokens
      ensures ok <==> HandleAcceptEffect(old(View()), token, recipient, amount).Some?
      ensures View() == if ok then HandleAcceptEffect(old(View()), token, recipient, amount).value else old(View())
    {
      if token !in tokens {
        return false;
      }
      match kind {
        case LockAndRelease => ok := Commit(token, Move(tokens[token], self, recipient, amount));
        case MintAndBurn => ok := Commit(token, Mint(tokens[token], recipient, amount));
      }
    }

    method Commit(token: Address, ledger: Option<Ledger>) returns (ok: bool)
      modifies this`tokens
      ensures ok <==> ledger.Some?
      ensures tokens == if ok then old(tokens)[token := ledger.value] else old(tokens)
    {
      ok := ledger.Some?;
      if ok {
        tokens := tokens[token := ledger.value];
      }
    }
  }

  // ----- exactly when a call goes through and what it then does

  /** Only the gateway's call with a counterpart's metadata for an amount that can be paid goes through. It
      pays the recipient exactly that amount, out of the manager's balance or newly minted, and changes
      nothing else. */
  lemma AcceptPaysIff(m: State, caller: Address, metadata: CallMetadata, args: AcceptArgs)
    ensures AcceptEffect(m, caller, metadata, args).Some? <==>
            caller == m.gateway && PassesFor(m, args.token, metadata) && CanPayOut(m, args)
    ensures AcceptEffect(m, caller, metadata, args).Some? && Conserved(m.tokens[args.token]) ==>
              var m' := AcceptEffect(m, caller, metadata, args).value;
              var l, l' := m.tokens[args.token], m'.tokens[args.token];
              && m' == m.(tokens := m.tokens[args.token := l']) && l'.allowances == l.allowances
              && l'.totalSupply == l.totalSupply + (if m.kind.MintAndBurn? then args.amount else 0)
              && forall a :: BalanceOf(l', a) ==
                             BalanceOf(l, a) - (if m.kind.LockAndRelease? && a == m.self then args.amount else 0)
                             + (if a == args.recipient then args.amount else 0)
  {
    if args.token in m.tokens && Conserved(m.tokens[args.token]) {
      MoveExactly(m.tokens[args.token], m.self, args.recipient, args.amount);
      MintExactly(m.tokens[args.token], args.recipient, args.amount);
    }
  }

  lemma TakeExactly(m: State, token: Address, from: Address, amount: nat)
    requires token in m.tokens ==> Conserved(m.tokens[token])
    ensures HandleTransferEffect(m, token, from, amount).Some? <==> CanTake(m, token, from, amount)
    ensures HandleTransferEffect(m, token, from, amount).Some? ==>
              var m' := HandleTransferEffect(m, token, from, amount).value;
              var l, l' := m.tokens[token], m'.tokens[token];
              && m' == m.(tokens := m.tokens[token := l']) && UsesAllowance(l, l', from, m.self, amount)
              && l'.totalSupply == l.totalSupply - (if m.kind.MintAndBurn? then amount else 0)
              && forall a :: BalanceOf(l', a) ==
                             BalanceOf(l, a) - (if a == from then amount else 0)
                             + (if m.kind.LockAndRelease? && a == m.self then amount else 0)
  {
    if token in m.tokens {
      TransferFromExactly(m.tokens[token], m.self, from, m.self, amount);
      BurnFromExactly(m.tokens[token], m.self, from, amount);
    }
  }

  /** A transfer goes through exactly when the manager may take the amount and its gateway relays for it. It
      takes the amount from the sender, to hold or to burn, out of the allowance, and relays one parcel: for
      the registered route, or for chain 0 and the zero addresses where there is none. */
  lemma TransferSendsIff(m: State, sender: Address, token: Address, remoteChainId: nat, recipient: Address, amount: nat)
    requires token in m.tokens ==> Conserved(m.tokens[token])
    ensures TransferEffect(m, sender, token, remoteChainId, recipient, amount).Some? <==>
            m.registered && CanTake(m, token, sender, amount)
    ensures TransferEffect(m, sender, token, remoteChainId, recipient, amount).Some? ==>
              var m' := TransferEffect(m, sender, token, remoteChainId, recipient, amount).value;
              var l, l' := m.tokens[token], m'.tokens[token];
              && UsesAllowance(l, l', sender, m.self, amount)
              && (forall a :: BalanceOf(l', a) ==
                              BalanceOf(l, a) - (if a == sender then amount else 0)
                              + (if m.kind.LockAndRelease? && a == m.self then amount else 0))
              && l'.totalSupply == l.totalSupply - (if m.kind.MintAndBurn? then amount else 0)
              && m' == m.(tokens := m.tokens[token := l'], sent := m'.sent)
              && |m'.sent| == |m.sent| + 1 && m.sent < m'.sent
              && var parcel, known := m'.sent[|m.sent|], (token, remoteChainId) in m.remoteTokens;
              && parcel.metadata.sourceChainId == m.chainId && parcel.metadata.sender == m.self
              && parcel.args.recipient == recipient && parcel.args.amount == amount
              && parcel.targetChainId == (if known then m.remoteTokens[(token, remoteChainId)].chainId else 0)
              && parcel.target == (if known then m.remoteTokens[(token, remoteChainId)].tokenManager else 0)
              && parcel.args.token == (if known then m.remoteTokens[(token, remoteChainId)].token else 0)
  {
    TakeExactly(m, token, sender, amount);
  }
}
