# A verified model of xbridge

xbridge carries messages, and with them tokens, between chains. A gateway on each chain numbers
outgoing messages per target chain; validators watch the gateways, sign what was relayed and collect
each other's signatures; a leader submits a message with its signatures to the target gateway, which
checks that more than two thirds of the validators signed, marks the message as dispatched and calls
the target. Token managers use the messages to lock and release tokens on their home chain and to
mint and burn bridged tokens elsewhere. Besides the bridge, the repository holds the wire codec of an
older lock proxy and ledgers with unusual minting rules.

The model has one module per component:

| file | component |
|---|---|
| `Base.dfy` | addresses, bytes, relayed events, digests, signatures |
| `SignatureValidator.dfy` | the on-chain signature check and the validator set |
| `BridgeNode.dfy` | the validator's node for one chain, in Rust |
| `ChainGateway.dfy` | relayer and dispatcher of one chain, with re-entrant and reverting calls |
| `Network.dfy` | all gateways and validators as one step system |
| `Erc20.dfy` | sums over maps and the EIP-20 ledger the tokens build on |
| `BridgedToken.dfy` | the bridged token with its lock proxy top-up |
| `TokenManager.dfy`, `TokenBridge.dfy` | the two token managers; one home token on any number of chains |
| `BridgeCalls.dfy`, `BridgeLinks.dfy`, `EndToEnd.dfy` | managers, tokens, gateways and nodes together, through arbitrary call trees |
| `SwitcheoToken.dfy` | the ZRC-2 token that mints and burns at its lock proxy |
| `FeeTracker.dfy`, `MeteredDispatch.dfy` | deposits that pay for metered, re-entrant calls; the dispatcher with fees |
| `ZeroCopy.dfy` | numbers in base 256 and the wire codec on byte strings |
| `EvmMemory.dfy` | the assembly of the codec and of `slice`, on byte-addressed memory |
| `Keepers.dfy` | counting signers by striking keepers off in place |
| `BlockScan.dfy` | scanning blocks for gateway logs and polling for new ones |

Code that updates state is a class or a method; each method is proved equal to a function of the old
state (`...Effect`, `Step`), and the properties over all runs are proved about those functions. A
call into unknown code is a tree: what the called contract calls in turn, and whether each frame
reverts. A revert restores the state its frame started from. None stands for a revert or a throw.

## Assumptions

- Digests are injective in the event. Signer recovery is an arbitrary function; where stated, it never
  yields the zero address (`NeverZero`, which the on-chain library guarantees). Of the signatures submitted
  for a message, those that recover to an honest address on its digest are by signers that signed it
  (`Unforged`); what they recover to on other digests does not matter.
- Node and contract recover alike, which presumes that recovery ids are encoded as both sides expect. Where
  a result says so (`Unchanged`), the validator set fetched by the node does not change.
- The inputs of a node end where its process ends, be it by its own failure (`BridgeNode.Handled`) or that of
  another chain's node.
- At most two thirds of a validator set are not honest. Honest validators sign only what they
  make of committed `Relayed` entries of chains they follow; that the node does so for its inputs is
  `BridgeNode.EveryMessageHasItsInput`. What they make of an entry is the entry, unless an exception is
  configured for its transaction (`exceptions.rs`).
- In `TokenBridge` the registrations on both sides point at each other, the token is a standard EIP-20
  token, no lock proxy is set, and a parcel of a manager is dispatched at most once and unchanged; that
  gateways and signatures see to the latter is proved in `EndToEnd`.
- Registered senders other than managers relay calls of `accept` only with metadata (`relayWithMetadata`).
  Through the plain `relay` they could write any metadata; `TokenBridge.MessageTakesIff` says which such
  messages take something out of the bridge, and `TokenBridge.Solvency` accounts for them.
- Memory addresses do not wrap around 2^256 and the memory modelled has room for what is allocated.

## Where the code differs from what it says

- Reading a byte string requires `offset < offset + len`, so an empty field, which the writer accepts,
  is never read back. `ZeroCopy.TransferArgsRoundTrip` gives the exact condition.
- `slice` of length zero reserves a word without clearing it. The result is empty exactly when that
  word was zero (`EvmMemory.Memory.Slice`).
- A comment in the fee tracker says fees are taken even from an insufficient deposit. They are taken
  exactly when the deposit covers what was spent; otherwise the whole call reverts
  (`FeeTracker.SkippedBodyIsChargedIff`).
- The node tells events of a chain apart by nonce alone, the gateway numbers them per target chain. Of
  two events sharing a nonce at most one is requested by one node's run (`BridgeNode.SharedNonceStarves`).
  Two leaders that hear of them in different order request one each (`Network.TwoTargetsMeetInTheNode`).
- A failed validator query or malformed signature bytes end the node's listening, and with it the whole
  process (`bridge_node.rs` lines 190 and 302-305, `validator_node.rs` line 148). Signatures short of a quorum
  are lost, and a restarted node counts from nothing (`BridgeNode.FailedQueryLosesQuorum`).
- The node checks signers against the validator set of the moment their signatures arrive and never again.
  A request is accepted if and only if all its signers are in the set then current and a quorum of it
  (`BridgeNode.RequestIsAcceptedIff`). Once a signer leaves, all later requests for that nonce are refused,
  even if a quorum of the new set signed (`BridgeNode.DepartedSignerBlocks`, `BridgeNode.DepartedSignerStarves`).
- The dispatcher with fees meters outside its guards. A deposit that covers what was spent, but not all the gas
  at the start, pays any caller although nothing is dispatched (`MeteredDispatch.PaidWithoutDispatchIff`).
- An exception makes honest nodes sign what no chain logged. Such a message may take what no parcel brought,
  while the parcel it was meant to rescue stays owed; `EndToEnd.DispatchTakesIff` says exactly when, and
  `EndToEnd.EveryHistoryBalances` keeps account of it.
- A poll sets the position to the reported head even if it scanned only up to `scan_behind_blocks`
  before it or the fetch failed. No block is lost exactly when neither happens
  (`BlockScan.AllScannedIffLossless`).
- A transfer over a route that is not registered locks the tokens and sends a parcel to chain 0, which
  can never be delivered (`TokenBridge.LockIsDeliverableIff`).
- An `accept` compares metadata with the registered route even when there is none, which reads as zeros.
  All-zero metadata passes; `relayWithMetadata` never packs it (`TokenBridge.ForeignIsRefused`).
- Striking keepers off counts the distinct signers among the keepers if and only if no signing keeper is
  listed twice and no zero signer follows a signing keeper (`Keepers.CountsDistinctSignersIff`). The
  shipped caller gives up on a zero signer beforehand (`ccmCrossChainManager.sol`, line 1178), so with
  distinct keepers it counts right (`Keepers.DistinctKeepersAreCountedRight`).
- A head below the scan-behind distance, or a first head of zero, makes a subtraction panic
  (`BlockScan.EventListener.Listen`). The panic unwinds the node's task and ends the process.

## Model

| member | source | states |
|---|---|---|
| SignatureValidator.ValidateSignaturesWithSupermajority | smart-contracts/contracts/core/SignatureValidator.sol:48-74 | succeeds if and only if every signature recovers to a non-zero validator, signers strictly ascend and three times their number exceeds twice the set; otherwise the verdict names the fault of the first bad signature, or the missing majority |
| SignatureValidator.SignatureCountIsSignerCount | smart-contracts/contracts/core/SignatureValidator.sol:56-69 | on accepted signatures the count is the cardinality of the set of signers, all of them validators |
| SignatureValidator.QuorumIntersection | smart-contracts/contracts/core/SignatureValidator.sol:35-74 | any two accepted lists, for any two digests, share more than a third of the validators |
| SignatureValidator.QuorumsShareHonestSigner | smart-contracts/contracts/core/SignatureValidator.sol:35-74 | when at most a third of the validators are not honest, two accepted lists share an honest signer |
| SignatureValidator.QuorumHasHonestSigner | smart-contracts/contracts/core/SignatureValidator.sol:35-40 | when at most two thirds are not honest, every accepted list has an honest signature |
| SignatureValidator.FaultyQuorumForges | smart-contracts/contracts/core/SignatureValidator.sol:35-40 | the bound is tight: when more than two thirds are not honest, these alone produce an accepted list for any digest |
| SignatureValidator.ValidatorManager.constructor | smart-contracts/contracts/core-upgradeable/ValidatorManagerUpgradeable.sol:80-90 | the initial validators are exactly the listed addresses, repeats counting once |
| SignatureValidator.ValidatorManager.AddValidator | smart-contracts/contracts/core-upgradeable/ValidatorManagerUpgradeable.sol:112-121 | adds exactly the user and reports whether it was new |
| SignatureValidator.ValidatorManager.RemoveValidator | smart-contracts/contracts/core-upgradeable/ValidatorManagerUpgradeable.sol:126-128 | removes exactly the user and reports whether it was there |
| SignatureValidator.ValidatorManager.ValidateMessageWithSupermajority | smart-contracts/contracts/core-upgradeable/ValidatorManagerUpgradeable.sol:161-169 | accepts exactly what the signature check accepts against the stored set |
| BridgeNode.Node.constructor | bridge-validators/src/bridge_node.rs:41-63 | a new node knows the fetched validators and nothing else |
| BridgeNode.Node.HandleBridgeMessage | bridge-validators/src/bridge_node.rs:198-227 | marks a nonce as dispatched, creating an entry without event if there is none, or handles a peer's signature; fails only when the bytes of the signature are malformed or the validator query fails |
| BridgeNode.Node.HandleRelayEvent | bridge-validators/src/bridge_node.rs:229-256 | signs and broadcasts a relayed event unless its nonce was broadcast or is marked dispatched |
| BridgeNode.Node.HandleDispatchEvent | bridge-validators/src/bridge_node.rs:258-270 | forwards the notice that a nonce of the source chain was dispatched |
| BridgeNode.Node.HandleRelay | bridge-validators/src/bridge_node.rs:297-372 | stores a validator's signature on the event stored for the nonce and, on a leader with a quorum, requests dispatch with all signatures collected; malformed signature bytes fail before the validator set is refreshed |
| BridgeNode.Node.SyncHistoricEvents | bridge-validators/src/bridge_node.rs:88-152 | replays historic dispatches, then historic relays, through the same handlers, as far as the queries succeed; nothing when no block of deployment is configured |
| BridgeNode.Node.ListenEvents | bridge-validators/src/bridge_node.rs:154-194 | reacts to every input in turn up to the first that cannot be handled, which ends the node |
| BridgeNode.IntoOrderedSignatures | bridge-validators/src/signature.rs:16-22 | lists each collected signature once, in strictly ascending order of signers |
| BridgeNode.OrderedIsAcceptedIff | bridge-validators/src/signature.rs:16-22 | genuine signatures, once ordered, pass the contract's check if and only if all signers are validators there and a quorum |
| BridgeNode.RunIsSound | bridge-validators/src/bridge_node.rs:321-349 | in every reachable state, whatever validator sets were fetched, each stored signature recovers to the validator it is stored under on the stored event's digest, and each request is for the event stored under its nonce |
| BridgeNode.RequestIsAcceptedIff | bridge-validators/src/bridge_node.rs:359-369 | in every reachable state, whatever validator sets were fetched, a dispatch request passes the contract's check against any current set if and only if all its signers are in that set and a quorum of it |
| BridgeNode.RequestIsQuorumWhenPosted | bridge-validators/src/bridge_node.rs:349-369 | every request is answered to a signature on its event, and its signatures are a quorum of the set fetched with that signature |
| BridgeNode.DepartedSignerBlocks | bridge-validators/src/bridge_node.rs:291-349 | once a signature is stored for a nonce, all later requests for it are refused while its signer is not in the set |
| BridgeNode.DepartedSignerStarves | bridge-validators/src/bridge_node.rs:291-369 | an input where this turns down a quorum of the current set, whose signatures alone would be accepted |
| BridgeNode.EntriesMirrorClaims | bridge-validators/src/bridge_node.rs:321-349 | after any inputs, whatever validator sets were fetched, the entry of a nonce belongs to whoever claimed it first among the inputs handled, and holds exactly the validators whose signatures on that event were among them, each with its latest |
| BridgeNode.RequestedIff | bridge-validators/src/bridge_node.rs:297-369 | after any inputs a node has requested dispatch of an event if and only if it is a leader and some input it handled brought a signature on it while it held the claim on its nonce, and the validators that signed it by then were a quorum of the set just fetched |
| BridgeNode.RequestedIffQuorum | bridge-validators/src/bridge_node.rs:320-369 | while the validator set does not change: if and only if it is a leader and, among the inputs handled, the event was first to claim its nonce and a quorum of distinct validators signed it, in any order and with any repeats |
| BridgeNode.RequestsCarryAll | bridge-validators/src/bridge_node.rs:349-369 | every request is posted when an input completes a quorum, with exactly the latest signatures of all validators whose signatures on its event had arrived by then |
| BridgeNode.FailedQueryLosesQuorum | bridge-validators/src/validator_node.rs:142-156 | inputs where a failed query between two signatures that are a quorum leaves the event unrequested, before and after a restart, while without the failure it is requested |
| BridgeNode.SharedNonceStarves | bridge-validators/src/bridge_node.rs:30-31 | of two events sharing a nonce at most one is ever requested by one node's run, whatever inputs arrive and whatever validator sets are fetched |
| BridgeNode.RunExtends | bridge-validators/src/bridge_node.rs:205-219 | over any inputs a stored event never changes, signer sets and remembered nonces only grow, the dispatched mark never clears and what was sent stays sent |
| BridgeNode.NoBroadcastAfterDispatch | bridge-validators/src/bridge_node.rs:238-244 | after its dispatched notice a nonce is never broadcast |
| BridgeNode.BroadcastAtMostOnce | bridge-validators/src/bridge_node.rs:230-253 | no nonce is broadcast twice, over any inputs |
| BridgeNode.MarkedIffNotified | bridge-validators/src/bridge_node.rs:205-219 | a nonce is marked dispatched if and only if a notice of it was handled |
| BridgeNode.BroadcastsIff | bridge-validators/src/bridge_node.rs:229-256 | a node broadcasts under a nonce if and only if it handles a relayed event with that nonce before any dispatched notice of it, and then its own signature on the first such event, as of its chain |
| BridgeNode.ForwardsEveryDispatch | bridge-validators/src/bridge_node.rs:258-270 | the notices a node forwards are exactly the dispatches it handled, in order |
| BridgeNode.EveryMessageHasItsInput | bridge-validators/src/bridge_node.rs:229-279 | every signature the node broadcasts is its own on an event it read from its chain, with that chain as source; every notice it forwards names a dispatch it saw; every request names an event a peer sent |
| ChainGateway.Gateway.constructor | smart-contracts/contracts/core-upgradeable/ChainDispatcherUpgradeable.sol:98-113 | a new gateway has relayed, registered and dispatched nothing |
| ChainGateway.Gateway.Relay | smart-contracts/contracts/core-upgradeable/RelayerUpgradeable.sol:122-133 | relays if and only if the sender is registered and the next nonce fits; the log then gains exactly that message under the next nonce for its target chain, and no other nonce moves; otherwise nothing changes |
| ChainGateway.RelaysIff | smart-contracts/contracts/core-upgradeable/RelayerUpgradeable.sol:122-133 | the same of the function the call trees use |
| ChainGateway.RemovedSenderIsSilent | smart-contracts/contracts/core-upgradeable/RelayerUpgradeable.sol:122-133 | from its removal to its next registration an account relays nothing, wherever it tries to in call trees: all is as if it had not tried |
| ChainGateway.RegistrationChangesOne | smart-contracts/contracts/core-upgradeable/RelayerUpgradeable.sol:189-191 | registration and removal take effect for the account named alone |
| ChainGateway.Gateway.Dispatch | smart-contracts/contracts/core-upgradeable/ChainDispatcherUpgradeable.sol:157-199 | refuses a marked or unaccepted message without effect; otherwise marks, calls and logs it with the outcome of the call, whatever the call does in turn |
| ChainGateway.Gateway.Execute | smart-contracts/contracts/core-upgradeable/ChainDispatcherUpgradeable.sol:193-196 | a call frame takes effect as a whole or, when it reverts, not at all |
| ChainGateway.DispatchKeepsBooks | smart-contracts/contracts/core-upgradeable/ChainDispatcherUpgradeable.sol:157-199 | through any nesting and any reverts, a key is marked exactly when it is logged or in progress, and no key is logged twice |
| ChainGateway.AtMostOnce | smart-contracts/contracts/core-upgradeable/DispatchReplayCheckerUpgradeable.sol:71-87 | after any transactions the log has at most one entry per source chain and nonce, keys are marked exactly when logged, and nonces towards each chain are 1 to k without gaps |
| ChainGateway.DispatchGoesThrough | smart-contracts/contracts/core-upgradeable/ChainDispatcherUpgradeable.sol:157-199 | a request goes through if and only if it is fresh and accepted; its own entry is then the last one, successful exactly when a contract was called and did not revert |
| Network.AcceptedIsHonestlySigned | smart-contracts/contracts/core-upgradeable/ChainDispatcherUpgradeable.sol:167-179 | what the gateway accepts bears an honest signature on exactly source, this chain, target, call, gas limit and nonce |
| Network.ActionKeepsVouched | smart-contracts/contracts/core-upgradeable/ChainDispatcherUpgradeable.sol:157-199 | the same for every entry logged anywhere in a transaction's call tree |
| Network.RunKeepsInvariant | smart-contracts/contracts/core-upgradeable/RelayerUpgradeable.sol:122-133 | in every reachable state of the network everything honestly signed is what honest nodes make of a relayed entry, and everything logged as dispatched was honestly signed |
| Network.DispatchedWasReported | smart-contracts/contracts/core-upgradeable/ChainDispatcherUpgradeable.sol:167-198 | in every reachable state each dispatched message is what honest nodes make of an entry relayed on its source chain, exceptions included, and is dispatched at most once |
| Network.AuthenticIffLogged | smart-contracts/contracts/core-upgradeable/RelayerUpgradeable.sol:122-133 | a message is the one its source relayed to its target under its nonce if and only if that very entry is in the source's log |
| Network.ReportedIsAuthenticIff | bridge-validators/src/exceptions.rs:35-53 | what honest nodes make of an entry is what the source relayed if and only if the corrected entry is itself in the log, as it is when no exception touches it |
| Network.DispatchedIsRelayed | smart-contracts/contracts/core-upgradeable/ChainDispatcherUpgradeable.sol:167-198 | where no exception touches the source's log, each dispatched message is in every reachable state exactly the one its source relayed to this chain under its nonce |
| Network.LeaderRequestGoesThrough | bridge-validators/src/bridge_node.rs:359-369 | what a leader's node requests, once ordered and submitted, goes through on the target gateway if and only if all its signers are validators there, a quorum, and its key was not dispatched there before; it is logged as exactly that event |
| Network.TwoTargetsMeetInTheNode | bridge-validators/src/bridge_node.rs:320-349 | a gateway's first messages to two chains both get nonce 1; with both at a quorum a leader requests only the one it heard of first, and a leader that heard of them the other way round only the other |
| BridgedToken.Token.Transfer | smart-contracts/contracts/periphery/BridgedToken.sol:66-72 | tops up a paying lock proxy, then transfers; reverts as a whole |
| BridgedToken.Token.TransferFrom | smart-contracts/contracts/periphery/BridgedToken.sol:74-81 | the same with an allowance |
| BridgedToken.Token.MintIfLockProxy | smart-contracts/contracts/periphery/BridgedToken.sol:14-29 | mints exactly the shortfall of a paying lock proxy, refuses its payment to itself, and leaves every other payment alone |
| BridgedToken.Token.Mint | smart-contracts/contracts/periphery/BridgedToken.sol:47-49 | only the owner mints |
| BridgedToken.Token.Burn | smart-contracts/contracts/periphery/BridgedToken.sol:51-53 | only the owner burns, from its own balance |
| BridgedToken.Token.BurnFrom | smart-contracts/contracts/periphery/BridgedToken.sol:55-60 | only the owner burns from others, within its allowance |
| BridgedToken.Token.SetLockProxyAddress | smart-contracts/contracts/periphery/BridgedToken.sol:62-64 | only the owner changes the lock proxy, and nothing else changes |
| BridgedToken.StepConserves | smart-contracts/contracts/periphery/BridgedToken.sol:43-81 | every operation keeps supply equal to the sum of balances and changes the circulating supply by exactly what crosses the border of the lock proxy |
| BridgedToken.PaymentConserves | smart-contracts/contracts/periphery/BridgedToken.sol:66-81 | a payment debits and credits exactly its two parties, top-up included, and changes what circulates by what crosses the border of the lock proxy |
| BridgedToken.CirculatingIsHeldOutsideProxy | smart-contracts/contracts/periphery/BridgedToken.sol:43-45 | over every run the circulating supply is the sum of all balances but the lock proxy's, so it never underflows |
| BridgedToken.ProxyPaymentAlwaysFunded | smart-contracts/contracts/periphery/BridgedToken.sol:14-29 | a lock proxy payment to another non-zero address succeeds if and only if the resulting circulating supply fits a uint256, and raises it by exactly the amount |
| BridgedToken.TransferPaysIff | smart-contracts/contracts/periphery/BridgedToken.sol:66-72 | for any lock proxy and any payer a transfer succeeds if and only if both addresses are non-zero and the payer has the amount, or is the lock proxy, pays somebody else, and the resulting circulating supply fits; it then moves exactly the amount, of which only the lock proxy's shortfall is new supply |
| BridgedToken.TransferFromPaysIff | smart-contracts/contracts/periphery/BridgedToken.sol:74-81 | the same on behalf of the payer, if and only if the allowance covers it as well; the allowance is used up by the amount unless unlimited, and no other changes |
| BridgedToken.OwnerStepsIff | smart-contracts/contracts/periphery/BridgedToken.sol:47-64 | the owner alone mints, burns, burns from others within its allowance, and sets the lock proxy; the exact conditions for each to succeed |
| BridgedToken.OwnerStepsChange | smart-contracts/contracts/periphery/BridgedToken.sol:47-60 | a mint, a burn and an approval change exactly the balance or allowance named and the supply by the amount |
| BridgedToken.UnsetProxyIsPlain | smart-contracts/contracts/periphery/BridgedToken.sol:66-81 | while no lock proxy is set the token transfers like a plain EIP-20 token |
| TokenManager.Manager.RegisterToken | smart-contracts/contracts/periphery/TokenManagerUpgradeable.sol:135-155 | only the owner sets the route of a token to a remote chain |
| TokenManager.Manager.DeployToken | smart-contracts/contracts/periphery/MintAndBurnTokenManagerUpgradeable.sol:68-94 | only the owner deploys an empty bridged token together with its route |
| TokenManager.Manager.Transfer | smart-contracts/contracts/periphery/TokenManagerUpgradeable.sol:171-188 | takes the amount from the caller and relays a parcel for the registered route, or for chain 0 when there is none; reverts as a whole when its gateway has not registered the manager |
| TokenManager.Manager.Accept | smart-contracts/contracts/periphery/TokenManagerUpgradeable.sol:191-209 | goes through if and only if the gateway calls, the metadata passes for that of the registered counterpart, the token is known and the amount can be paid out or minted |
| TokenManager.AcceptPaysIff | smart-contracts/contracts/periphery/TokenManagerUpgradeable.sol:191-209 | the same of the function the bridge uses; the recipient is then paid exactly that amount, out of the manager's balance or newly minted, and nothing else changes |
| TokenManager.TransferSendsIff | smart-contracts/contracts/periphery/TokenManagerUpgradeable.sol:171-188 | a transfer goes through if and only if the sender has the amount, allowed the manager to take it, and the gateway has registered the manager; it then takes the amount and that much of the allowance, holds or burns it, and relays one parcel to the registered route, or to chain 0 when there is none |
| BridgeCalls.DirectAcceptIsRefused | smart-contracts/contracts/periphery/TokenManagerUpgradeable.sol:106-111 | no account but the gateway gets anything out of a manager by calling `accept` itself |
| TokenManager.Manager.HandleTransfer | smart-contracts/contracts/periphery/LockAndReleaseTokenManagerUpgradeable.sol:30-37 | locks by transferFrom; a mint-and-burn manager burns instead |
| TokenManager.Manager.HandleAccept | smart-contracts/contracts/periphery/MintAndBurnTokenManagerUpgradeable.sol:116-123 | mints; a lock-and-release manager pays out of its balance instead |
| TokenBridge.LockKeeps | smart-contracts/contracts/periphery/LockAndReleaseTokenManagerUpgradeable.sol:30-37 | locking raises locked balance and liabilities alike |
| TokenBridge.BurnKeeps | smart-contracts/contracts/periphery/MintAndBurnTokenManagerUpgradeable.sol:106-113 | burning turns supply into an amount under way |
| TokenBridge.DeliverToRemoteKeeps | smart-contracts/contracts/periphery/MintAndBurnTokenManagerUpgradeable.sol:116-123 | a delivered parcel turns an amount under way into supply; a failed one stays owed |
| TokenBridge.DeliverToHomeKeeps | smart-contracts/contracts/periphery/LockAndReleaseTokenManagerUpgradeable.sol:40-47 | a release pays out exactly the amount it settles |
| TokenBridge.RunKeepsInvariant | smart-contracts/contracts/periphery/TokenManagerUpgradeable.sol:171-209 | in every reachable world, whatever other senders' messages are dispatched, routes are symmetric, every parcel under way names the manager and token of its chain, and the books balance |
| TokenBridge.Solvency | smart-contracts/contracts/periphery/TokenManagerUpgradeable.sol:171-209 | over every run with any number of remote chains, messages with forged metadata included, the locked balance plus what forgeries took is exactly the bridged supplies plus amounts under way or failed plus donations; it covers the liabilities if and only if forgeries took no more than was donated |
| TokenBridge.MessageTakesIff | smart-contracts/contracts/core-upgradeable/RelayerUpgradeable.sol:144-151 | a message that no manager relayed takes something out of the bridge if and only if it names the manager and token of its chain, can be paid, and its metadata is that of the registered counterpart or, where none is registered, all zero |
| TokenBridge.ForeignIsRefused | smart-contracts/contracts/core-upgradeable/RelayerUpgradeable.sol:166-183 | what any other sender relays with metadata is refused wherever it is dispatched |
| TokenBridge.PackedMetadataKeepsTheBooks | smart-contracts/contracts/core-upgradeable/RelayerUpgradeable.sol:166-183 | over every run in which other senders relay only with metadata nothing is forged, and the locked balance is exactly the liabilities plus donations |
| TokenBridge.ReleaseIsFunded | smart-contracts/contracts/periphery/LockAndReleaseTokenManagerUpgradeable.sol:40-47 | in every reachable state a release succeeds if and only if there is gas, the route is registered, the recipient is not zero and the amount is there, which it is unless forgeries took more than was donated |
| TokenBridge.MintNeverOverflows | smart-contracts/contracts/periphery/MintAndBurnTokenManagerUpgradeable.sol:116-123 | in every reachable state a mint succeeds if and only if there is gas, the recipient is not zero and the supply fits, which it does unless forgeries took more than was donated |
| TokenBridge.LockIsDeliverableIff | smart-contracts/contracts/periphery/TokenManagerUpgradeable.sol:177-187 | what is locked can be delivered if and only if its route was registered |
| TokenBridge.LockTakesAndSends | smart-contracts/contracts/periphery/TokenManagerUpgradeable.sol:171-188 | a transfer at home takes the amount from its sender alone and sends it to the named recipient on the registered chain |
| TokenBridge.RemoteDeliveryCredits | smart-contracts/contracts/periphery/TokenManagerUpgradeable.sol:191-209 | a delivery on a remote chain credits that recipient with that amount, and nobody else |
| TokenBridge.BurnTakesAndSends | smart-contracts/contracts/periphery/TokenManagerUpgradeable.sol:171-188 | a transfer on a remote chain takes the amount from its sender alone and sends it home |
| TokenBridge.HomeDeliveryPays | smart-contracts/contracts/periphery/TokenManagerUpgradeable.sol:191-209 | a delivery at home pays that recipient that amount out of what is locked |
| BridgeCalls.OpFollows | smart-contracts/contracts/core-upgradeable/ChainDispatcherUpgradeable.sol:157-199 | whatever a call tree does with managers and tokens, its gateway goes through exactly the gateway calls it contains, managers' relays and accepted calls among them |
| BridgeCalls.OperationsReachTheBridge | smart-contracts/contracts/periphery/TokenManagerUpgradeable.sol:171-188 | within any call tree a transfer takes effect on the bridge exactly when the gateway logs its message, and changes nothing otherwise; holders' calls reach the token |
| BridgeLinks.AcceptDelivers | smart-contracts/contracts/periphery/TokenManagerUpgradeable.sol:191-209 | a gateway's call of a manager, anywhere in a call tree, delivers a parcel that was waiting on the source chain, or is handled like any other sender's message |
| EndToEnd.PaymentAnswersTransfer | smart-contracts/contracts/periphery/TokenManagerUpgradeable.sol:171-209 | in every reachable system with harmless corrections a dispatch to a manager pays out or mints only for a parcel waiting on the source chain, exactly as that parcel says |
| BridgeLinks.OpKeeps | smart-contracts/contracts/periphery/TokenManagerUpgradeable.sol:171-209 | any call tree, with direct calls of `accept` by any account among its operations, keeps the books of the bridge, and the links between each manager's parcels, its gateway's log and the marks at the targets |
| EndToEnd.OpForgesNothing | smart-contracts/contracts/periphery/TokenManagerUpgradeable.sol:191-209 | where every correction makes an entry that is logged anyway, no call of `accept`, or one with the metadata of no manager, no call tree takes anything that no parcel brought |
| EndToEnd.HistoryIsNetworkRun | bridge-validators/src/bridge_node.rs:229-256 | with nodes signing what their runs broadcast, every history of the system is, to gateways and validators, a run of the network |
| EndToEnd.HistoryKeeps | smart-contracts/contracts/periphery/TokenManagerUpgradeable.sol:171-209 | in every reachable system, whatever corrections are configured, the books balance, and managers and gateways agree |
| EndToEnd.EveryHistoryBalances | bridge-validators/src/exceptions.rs:35-53 | whatever corrections are configured, the home manager's balance plus what corrected messages took is exactly what is bridged out, under way or stuck, plus donations |
| EndToEnd.DispatchTakesIff | bridge-validators/src/exceptions.rs:35-53 | an accepted dispatch to a manager takes what no parcel brought if and only if its message is no parcel's entry, there is gas, the manager can pay and the metadata passes for its counterpart's |
| EndToEnd.OnlyCorrectionsTake | bridge-validators/src/exceptions.rs:35-53 | in every reachable system a message that takes such an amount is an honest report that differs from every entry in its source's log |
| EndToEnd.BridgeIsSolvent | smart-contracts/contracts/periphery/TokenManagerUpgradeable.sol:171-209 | in every reachable system, with at most two thirds of each validator set dishonest, any call trees and harmless corrections, the home manager holds exactly what is bridged out, under way or stuck, plus donations; that deliveries are genuine and happen once is proved, not assumed |
| EndToEnd.RequestedParcelIsDelivered | bridge-validators/src/bridge_node.rs:359-369 | in every reachable system where forgeries took no more than was donated, what a leader's node requests for a parcel, submitted with enough gas while its signers are a quorum and its nonce is fresh, delivers that transfer, and pays if and only if the recipient is not zero and the home manager has a route to where it came from |
| SwitcheoToken.Token.constructor | scilla-contracts/contracts/SwitcheoTokenZRC2.scilla:70-101 | deployment starts with no supply and a non-zero lock proxy |
| SwitcheoToken.Token.AuthorizedMoveIfSufficientBalance | scilla-contracts/contracts/SwitcheoTokenZRC2.scilla:134-155 | moves the amount, reading the recipient after debiting the sender, or throws |
| SwitcheoToken.Token.MintTo | scilla-contracts/contracts/SwitcheoTokenZRC2.scilla:178-190 | adds the amount to supply and balance, or throws on the zero address or overflow |
| SwitcheoToken.Token.BurnFrom | scilla-contracts/contracts/SwitcheoTokenZRC2.scilla:193-210 | takes the amount off supply and balance, or throws |
| SwitcheoToken.Token.HandleBurn | scilla-contracts/contracts/SwitcheoTokenZRC2.scilla:223-234 | queues a burn exactly when the lock proxy is paid |
| SwitcheoToken.Token.TransferTo | scilla-contracts/contracts/SwitcheoTokenZRC2.scilla:304-317 | mints for a paying lock proxy, moves, and queues the burn for a paid one |
| SwitcheoToken.Token.TransferFromTo | scilla-contracts/contracts/SwitcheoTokenZRC2.scilla:324-347 | moves within the allowance without minting, and queues the burn |
| SwitcheoToken.Token.Receive | scilla-contracts/contracts/SwitcheoTokenZRC2.scilla:272-370 | each transition does what its effect says or throws; only the token itself may burn, only the owner may change the lock proxy |
| SwitcheoToken.Token.Transact | scilla-contracts/contracts/SwitcheoTokenZRC2.scilla:223-234 | a transaction takes effect only when nothing throws and every queued burn ran |
| SwitcheoToken.MoveBalanced | scilla-contracts/contracts/SwitcheoTokenZRC2.scilla:134-155 | a move throws if and only if the balance is short: crediting never overflows Uint128 |
| SwitcheoToken.MintBalanced | scilla-contracts/contracts/SwitcheoTokenZRC2.scilla:178-190 | a mint throws if and only if the account is zero or the supply would overflow; it then credits that account alone |
| SwitcheoToken.BurnBalanced | scilla-contracts/contracts/SwitcheoTokenZRC2.scilla:193-210 | a burn throws if and only if the account is zero or its balance short; it then debits that account alone |
| SwitcheoToken.TransferThrowsOnlyIf | scilla-contracts/contracts/SwitcheoTokenZRC2.scilla:304-317 | a transfer throws if and only if the lock proxy would overflow the supply or another sender lacks the balance |
| SwitcheoToken.TransferMoves | scilla-contracts/contracts/SwitcheoTokenZRC2.scilla:304-317 | a transfer debits its sender, or raises the supply instead when the lock proxy pays, credits the recipient and touches nobody else |
| SwitcheoToken.TransferFromMoves | scilla-contracts/contracts/SwitcheoTokenZRC2.scilla:324-347 | a transfer on behalf throws if and only if allowance or balance is short, mints nothing and uses up exactly the amount of the allowance |
| SwitcheoToken.AllowancesAreTheSenders | scilla-contracts/contracts/SwitcheoTokenZRC2.scilla:272-298 | increasing and decreasing change what the spender may move of the sender's own, throw exactly for oneself or beyond Uint128, and touch no other allowance |
| SwitcheoToken.BurnsAreTheTokensOwn | scilla-contracts/contracts/SwitcheoTokenZRC2.scilla:349-370 | only the token itself burns, from exactly the account named, and only the owner changes the lock proxy |
| SwitcheoToken.PaymentToProxyBurnsIff | scilla-contracts/contracts/SwitcheoTokenZRC2.scilla:304-317 | a holder's payment to the lock proxy and the burn it sends take effect together if and only if the holder has the amount, which then leaves the supply |
| SwitcheoToken.PaymentByProxyMintsIff | scilla-contracts/contracts/SwitcheoTokenZRC2.scilla:304-317 | a payment by the lock proxy takes effect if and only if the supply stays within Uint128, which it raises by the amount |
| SwitcheoToken.StepsKeep | scilla-contracts/contracts/SwitcheoTokenZRC2.scilla:304-363 | at every point of a transaction, changes of the lock proxy included, the supply is the sum of balances and the lock proxy holds at most what it held when it became the lock proxy plus what is queued to be burned |
| SwitcheoToken.HistoryKeeps | scilla-contracts/contracts/SwitcheoTokenZRC2.scilla:304-370 | after any transactions, however messages interleave and however often the lock proxy changes, the supply is the sum of balances, no burn is pending, and the lock proxy holds at most what it held when it became the lock proxy |
| SwitcheoToken.ProxyIsEmptyBetweenTransactions | scilla-contracts/contracts/SwitcheoTokenZRC2.scilla:304-363 | after any transactions that keep the lock proxy of deployment, no burn is pending and the lock proxy holds nothing |
| SwitcheoToken.ChangedProxyStaysEmptyIff | scilla-contracts/contracts/SwitcheoTokenZRC2.scilla:365-370 | a new lock proxy is empty after all transactions to come, until the next change, if and only if it holds nothing when it is set |
| FeeTracker.Tracker.MeterFee | smart-contracts/contracts/core/FeeTracker.sol:28-48 | rejects a deposit below the offset, runs the body only for a deposit that covers all gas, then moves what was spent from deposit to refund, or reverts |
| FeeTracker.Tracker.DepositFee | smart-contracts/contracts/core/FeeTracker.sol:53-55 | credits exactly the ether received |
| FeeTracker.Tracker.WithdrawFee | smart-contracts/contracts/core/FeeTracker.sol:60-63 | pays out of the caller's deposit or reverts |
| FeeTracker.Tracker.RefundFee | smart-contracts/contracts/core/FeeTracker.sol:68-73 | pays the caller its whole refund and clears it, or reverts |
| FeeTracker.WithdrawCovered | smart-contracts/contracts/core/FeeTracker.sol:60-63 | a withdrawal fails only for want of deposit or because it is refused, never because ether is missing |
| FeeTracker.RefundCovered | smart-contracts/contracts/core/FeeTracker.sol:68-73 | a refund always has its ether |
| FeeTracker.ChargeCovered | smart-contracts/contracts/core/FeeTracker.sol:45-47 | a charge fails if and only if the deposit is short, and conserves the sum |
| FeeTracker.DepositCreditsSender | smart-contracts/contracts/core/FeeTracker.sol:53-55 | a deposit raises its sender's deposit alone by exactly the ether received |
| FeeTracker.WithdrawalPaysSender | smart-contracts/contracts/core/FeeTracker.sol:60-63 | a withdrawal pays out exactly the amount it takes off its sender's deposit, and touches nobody else's |
| FeeTracker.RefundPaysSender | smart-contracts/contracts/core/FeeTracker.sol:68-73 | a refund pays out exactly what its sender is owed and clears the claim, and touches no other claim and no deposit |
| FeeTracker.FundedBodyRuns | smart-contracts/contracts/core/FeeTracker.sol:41-47 | with a deposit that covers all gas the body runs; the call goes through if and only if the body does not revert and leaves the patron what was spent, keeps what the body did, and moves what was spent from the patron to the sender |
| FeeTracker.FeesAreGasTimesPrice | smart-contracts/contracts/core/FeeTracker.sol:29-45 | the offset is 44703 gas and 16 for each byte after the selector, the most a call costs is its gas at the start on top, and it is charged the gas that is gone at the end |
| FeeTracker.FeesConserved | smart-contracts/contracts/core/FeeTracker.sol:19-74 | through any nesting, re-entry and reverts, deposits plus refunds are ether paid in minus ether paid out |
| FeeTracker.UntouchedDepositPays | smart-contracts/contracts/core/FeeTracker.sol:42-47 | when the body ran and left the patron's deposit alone the final charge cannot underflow |
| FeeTracker.SkippedBodyIsChargedIff | smart-contracts/contracts/core/FeeTracker.sol:41-47 | when the body is skipped the fee is taken, from the patron to the sender and nobody else, if and only if the deposit covers what was spent |
| FeeTracker.SkippedBodyMayGoUnpaid | smart-contracts/contracts/core/FeeTracker.sol:41-47 | a deposit for which it is not |
| MeteredDispatch.Dispatcher.constructor | smart-contracts/contracts/core/ChainDispatcher.sol:50-52 | a new dispatcher has no deposits and has dispatched nothing |
| MeteredDispatch.Dispatcher.Dispatch | smart-contracts/contracts/core/ChainDispatcher.sol:54-87 | meters the guarded dispatch against its target's deposit, skips it when that does not cover all gas, then charges or reverts |
| MeteredDispatch.Dispatcher.Guarded | smart-contracts/contracts/core/ChainDispatcher.sol:64-86 | a validator's fresh and accepted message to a contract is marked, called and logged with the outcome of the call; anything else reverts |
| MeteredDispatch.DispatchedOnceAndCovered | smart-contracts/contracts/core/ChainDispatcher.sol:54-87 | after any transactions, however they nest, re-enter and revert, no key is logged twice, keys are marked exactly when logged, and the ether held is what depositors and callers are owed |
| MeteredDispatch.PaidWithoutDispatchIff | smart-contracts/contracts/core/FeeTracker.sol:28-48 | a call takes effect without dispatching anything, and pays its caller what was spent, if and only if the meter lets it in and the target's deposit covers what was spent but not all gas at the start |
| MeteredDispatch.PaidForDispatchIff | smart-contracts/contracts/core/ChainDispatcher.sol:54-87 | with a deposit that covers all gas a caller is paid if and only if it is a validator that dispatches a fresh, accepted message to a contract and the deposit left covers what was spent; the message is then logged |
| MeteredDispatch.TargetsEffectIsKeptIff | smart-contracts/contracts/core/ChainDispatcher.sol:80-86 | what the target did in a dispatch is kept if its frame did not revert and undone if it did; besides, exactly the mark, the log entry and the charge remain |
| ZeroCopy.VarUintIsCanonical | smart-contracts/test/zilbridge/TestingLockProxy.sol:278-304 | bytes are read as a variable-length integer if and only if they are the encoding of the value read, at any offset |
| ZeroCopy.VarUintIsPrefixFree | smart-contracts/test/zilbridge/TestingLockProxy.sol:481-491 | no encoding is a prefix of another |
| ZeroCopy.VarBytesRoundTrip | smart-contracts/test/zilbridge/TestingLockProxy.sol:476-479 | a non-empty field of 64-bit length is read back from any offset of any message |
| ZeroCopy.VarBytesReadFits | smart-contracts/test/zilbridge/TestingLockProxy.sol:194-197 | only non-empty fields are ever read |
| ZeroCopy.Uint255RoundTrip | smart-contracts/test/zilbridge/TestingLockProxy.sol:450-470 | numbers below 2^255 are read back |
| ZeroCopy.VarBytesIsCanonical | smart-contracts/test/zilbridge/TestingLockProxy.sol:194-249 | a field is read if and only if the bytes are the encoding of one that is not empty, at any offset |
| ZeroCopy.Uint255IsCanonical | smart-contracts/test/zilbridge/TestingLockProxy.sol:166-187 | 32 bytes are read if and only if they are the encoding of a number below 2^255 |
| ZeroCopy.DeserializesIff | smart-contracts/test/zilbridge/TestingLockProxy.sol:1783-1791 | the unlocking side accepts exactly the messages that begin with the encodings of three fields that are not empty and of an amount, and returns them |
| ZeroCopy.TransferArgsRoundTrip | smart-contracts/test/zilbridge/TestingLockProxy.sol:1768-1791 | serializing succeeds if and only if the three numbers are below 2^255; reading back, with anything appended, returns the original fields if and only if the three byte fields are non-empty and of 64-bit length |
| ZeroCopy.TailIsReadBack | smart-contracts/test/zilbridge/TestingLockProxy.sol:1768-1781 | fee, fee address, sender and nonce can be read back in that order after the amount, up to the end of the message |
| EvmMemory.Memory.CopyWords | smart-contracts/test/zilbridge/TestingLockProxy.sol:770-779 | the word loop copies whole words and stops right after the last one needed |
| EvmMemory.Memory.CopyOut | smart-contracts/test/zilbridge/TestingLockProxy.sol:745-793 | the result is exactly the requested bytes with their length, everything allocated before is unchanged, and the free memory pointer moves past the result to a multiple of 32 |
| EvmMemory.Memory.Slice | smart-contracts/test/zilbridge/TestingLockProxy.sol:732-796 | the slice, or a revert out of bounds; for length zero an empty array if and only if the free memory held a zero word |
| EvmMemory.Memory.NextUint | smart-contracts/test/zilbridge/TestingLockProxy.sol:111-187 | the loop that writes digits backwards reads the little-endian number |
| EvmMemory.Memory.NextVarUint | smart-contracts/test/zilbridge/TestingLockProxy.sol:278-304 | the memory code reads what the codec says |
| EvmMemory.Memory.NextVarBytes | smart-contracts/test/zilbridge/TestingLockProxy.sol:194-249 | the memory code returns an array with exactly the field the codec reads, or reverts with it |
| EvmMemory.Memory.NextUint255 | smart-contracts/test/zilbridge/TestingLockProxy.sol:166-187 | the memory code reads what the codec says |
| EvmMemory.Memory.WriteUint | smart-contracts/test/zilbridge/TestingLockProxy.sol:376-470 | the digit loop writes an array holding the little-endian encoding |
| EvmMemory.Memory.DeserializeTransferTxArgs | smart-contracts/test/zilbridge/TestingLockProxy.sol:1783-1791 | the fields end up in memory as the codec reads them, later allocations not disturbing earlier ones |
| Keepers.ContainMAddresses | smart-contracts/test/zilbridge/TestingLockProxy.sol:803-814 | answers whether enough strikes were made, and leaves the keepers with all signers struck off |
| Keepers.StrikesAreMatches | smart-contracts/test/zilbridge/TestingLockProxy.sol:803-814 | each matching place is struck once, however often signers repeat, and counted once more for every later zero signer |
| Keepers.CountsDistinctSignersIff | smart-contracts/test/zilbridge/TestingLockProxy.sol:797-814 | for any lists, the count is the number of distinct signers among the keepers if and only if no signing keeper is listed twice and no zero signer follows a signing keeper |
| Keepers.DistinctKeepersAreCountedRight | smart-contracts/contracts/periphery/ZilBridge/ccmCrossChainManager.sol:1165-1181 | for distinct keepers and signers without zero, which is what the caller passes on, the answer is whether enough distinct keepers signed |
| Keepers.ZeroSignerCountsStruckKeepers | smart-contracts/test/zilbridge/TestingLockProxy.sol:806-811 | a keeper counts twice when a zero signer follows it, and once when it goes before |
| BlockScan.TransformIsIdempotent | bridge-validators/src/exceptions.rs:35-53 | correcting a corrected log changes nothing, and no log is dropped |
| BlockScan.TransformExactly | bridge-validators/src/exceptions.rs:35-53 | a log changes if and only if an exception names its transaction, block number and hash and it has two topics; it then gets the exception's chain id as second topic and its bytes as data, and keeps all else |
| BlockScan.GetLogsFromBlocks | bridge-validators/src/block.rs:31-129 | the scan returns, in chain order, the logs of the range from both ends inclusive |
| BlockScan.LogsFromReceipt | bridge-validators/src/block.rs:73-121 | keeps exactly the gateway's logs whose topics match, corrected |
| BlockScan.MatchTopics | bridge-validators/src/block.rs:82-112 | true exactly when every filter given has a topic at its place that passes |
| BlockScan.FoundIff | bridge-validators/src/block.rs:31-129 | a log is found if and only if it is the correction of a passing gateway log of a successful transaction in the range |
| BlockScan.ScanIsInOrder | bridge-validators/src/block.rs:31-129 | a scan yields the corrections of exactly the passing logs in its range, each once, in the order of blocks, transactions and logs |
| BlockScan.RangesConcatenate | bridge-validators/src/block.rs:44-127 | adjacent ranges concatenate |
| BlockScan.SecondPassIsIdentity | bridge-validators/src/block.rs:204-211 | the second correction changes nothing of what a scan found |
| BlockScan.EventListener.PollNextEvents | bridge-validators/src/block.rs:248-311 | yields the logs of the new blocks below the scan-behind distance, waits while there are fewer than two, and moves to the reported head; panics exactly when the head is below that distance |
| BlockScan.PollMovesIff | bridge-validators/src/block.rs:248-311 | a poll moves the position, to the reported head, if and only if at least two blocks after it are far enough behind that head; it then yields exactly their logs if they could be fetched, and nothing otherwise |
| BlockScan.EventListener.Listen | bridge-validators/src/block.rs:313-329 | starts one block below the first head and yields poll after poll up to the first that panics; ends at once without a first head or when it is zero |
| BlockScan.ScansAscend | bridge-validators/src/block.rs:266-308 | the blocks of successive polls ascend and never overlap, whatever heads are reported |
| BlockScan.LosslessYieldsAll | bridge-validators/src/block.rs:248-329 | without losses the stream is exactly the logs of all blocks from the first head to the position, in order and once |
| BlockScan.AllScannedIffLossless | bridge-validators/src/block.rs:269-308 | every block up to the position is scanned if and only if every poll that moved it fetched and there is no scan-behind distance |
| BlockScan.LastBlockLost | bridge-validators/src/block.rs:275-308 | otherwise the block the position moved to is never scanned |
| BlockScan.AtMostOneBehind | bridge-validators/src/block.rs:266-273 | after any polls the position is at most one block short of what any of them found fit to scan |

## Left out

- ECDSA, keccak and ABI encoding: recovery is an arbitrary function and digests are injective.
- Gas accounting: running out of gas is a frame that reverts, gas readings only run down.
- Proxies, initialization guards, two-step ownership and storage slots of the upgradeable contracts; owners are constants, and the validator manager's owner check is not repeated.
- TokenBridge.Solvency, EndToEnd.BridgeIsSolvent: one home token; managers share only the registry, keyed by token, between tokens. Re-registration of a route and handing over token ownership are excluded, because they break symmetric registration.
- Token manager versions V2 to V6, the lock proxy token managers and native transfers: variations of the same ledgers with fees and pausing, or dependent on contracts that are not part of this model.
- `validator_node.rs`: routing messages between the nodes of one validator, and retrying a submission; channels are arbitrary sequences of inputs.
- RPC failures inside a scan, which abort it, and the `eth_getLogs` strategy, which trusts the node to filter.
- Parsing of logs into events after a scan.
- EndToEnd.RequestedParcelIsDelivered: presumes that the event is requested at all, which a nonce shared with another event of its chain may prevent, and that the manager's address is known to be a contract.
- Managers' other entry points (change of gateway, upgrades) and tokens that call back.
- EvmMemory.Memory.NextUint: stands for the three loops and the unrolled `NextUint16`, which have the same effect; `NextByte`, `NextBool`, `NextHash` and `NextBytes20` read fixed widths and are left out.
- `abi.encodePacked` is concatenation; wallets, cross-chain manager calls and `equalStorage` of the lock proxy are not modelled.
- Callbacks of the ZRC-2 token to sender and recipient are arbitrary further calls in the same transaction; ownership transitions of that token are left out.
- `bridge-web`, scripts, configuration and deployment.
