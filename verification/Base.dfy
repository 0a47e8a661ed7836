/** Vocabulary shared by every component. */
module Base {
  /** A 160-bit account address. Only its order and the zero address matter here. */
  type Address = nat

  const ZERO_ADDRESS: Address := 0

  /** One more than the largest Solidity `uint256` and Scilla `Uint128`. */
  const UINT256_LIMIT: nat := 0x1_0000000000000000_0000000000000000_0000000000000000_0000000000000000
  const UINT128_LIMIT: nat := 0x1_0000000000000000_0000000000000000

  type Byte = b: int | 0 <= b < 256
  type Bytes = seq<Byte>

  datatype Option<+T> = None | Some(value: T)

  /** The elements of a sequence. */
  function Elements<T>(s: seq<T>): (r: set<T>) {
    set x | x in s
  }

  lemma SubsetCardinality<T>(a: set<T>, b: set<T>)
    requires a <= b
    ensures |a| <= |b|
  {
    assert b == a + (b - a);
  }
}

/** What a chain relays and what validators sign. */
module Messages {
  import opened Base

  datatype RelayEvent = RelayEvent(
    sourceChainId: nat,
    targetChainId: nat,
    target: Address,
    call: Bytes,
    gasLimit: nat,
    nonce: nat)

  /** The gateway's `Relayed` log entry; the source chain is the one it was read from. */
  datatype Relayed = Relayed(targetChainId: nat, target: Address, call: Bytes, gasLimit: nat, nonce: nat)

  function EventFrom(relayed: Relayed, sourceChainId: nat): RelayEvent {
    RelayEvent(sourceChainId, relayed.targetChainId, relayed.target, relayed.call, relayed.gasLimit, relayed.nonce)
  }

  /** The EIP-191 (version 0x45) digest of the ABI encoding of an event. Encoding and hash are
      taken as injective, which a constructor is. */
  datatype Digest = Digest(body: RelayEvent)

  /** The 65 bytes of an ECDSA signature. */
  datatype Signature = Signature(r: nat, s: nat, v: nat)

  /** Signer recovery; None when recovery itself fails. Results hold for every such function. */
  type Recover = (Digest, Signature) -> Option<Address>
}
