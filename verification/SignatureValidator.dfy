/** The on-chain signature check and the validator set it runs against. */
module SignatureValidator {
  import opened Base
  import opened Messages

  datatype Verdict =
    | Valid
    | RecoveryFailed
    | NonUniqueOrUnorderedSignatures
    | InvalidValidatorOrSignatures
    | NoSupermajority

  predicate IsSupermajority(validators: set<Address>, count: nat) {
    count * 3 > |validators| * 2
  }

  /** Every signature recovers to a non-zero validator and the signers strictly ascend. */
  ghost predicate WellSigned(recover: Recover, validators: set<Address>, digest: Digest, signatures: seq<Signature>) {
    && (forall i :: 0 <= i < |signatures| ==>
          && recover(digest, signatures[i]).Some?
          && ZERO_ADDRESS < recover(digest, signatures[i]).value
          && recover(digest, signatures[i]).value in validators)
    && (forall i, j :: 0 <= i < j < |signatures| ==>
          recover(digest, signatures[i]).value < recover(digest, signatures[j]).value)
  }

  ghost predicate Accepts(recover: Recover, validators: set<Address>, digest: Digest, signatures: seq<Signature>) {
    WellSigned(recover, validators, digest, signatures) && IsSupermajority(validators, |signatures|)
  }

  ghost function Signers(recover: Recover, digest: Digest, signatures: seq<Signature>): set<Address> {
    set i | 0 <= i < |signatures| && recover(digest, signatures[i]).Some? :: recover(digest, signatures[i]).value
  }

  /** The address a new signer must exceed after an accepted prefix. */
  ghost function LastSigner(recover: Recover, validators: set<Address>, digest: Digest, prefix: seq<Signature>): Address
    requires WellSigned(recover, validators, digest, prefix)
  {
    if prefix == [] then ZERO_ADDRESS else recover(digest, prefix[|prefix| - 1]).value
  }

  /** Signature i is the first bad one and `fault` says what is wrong with it. */
  ghost predicate FaultAt(recover: Recover, validators: set<Address>, digest: Digest, signatures: seq<Signature>,
                          i: nat, fault: Verdict)
  {
    && i < |signatures|
    && WellSigned(recover, validators, digest, signatures[..i])
    && var signer := recover(digest, signatures[i]);
    && (fault == RecoveryFailed <==> signer.None?)
    && (fault == NonUniqueOrUnorderedSignatures <==>
        signer.Some? && signer.value <= LastSigner(recover, validators, digest, signatures[..i]))
    && (fault == InvalidValidatorOrSignatures <==>
        && signer.Some?
        && signer.value > LastSigner(recover, validators, digest, signatures[..i])
        && signer.value !in validators)
    && fault != Valid && fault != NoSupermajority
  }

  method ValidateSignaturesWithSupermajority(
    recover: Recover, validators: set<Address>, digest: Digest, signatures: seq<Signature>)
    returns (verdict: Verdict)
    ensures verdict == Valid <==> Accepts(recover, validators, digest, signatures)
    ensures verdict == NoSupermajority <==>
            WellSigned(recover, validators, digest, signatures) && !IsSupermajority(validators, |signatures|)
    ensures verdict != Valid && verdict != NoSupermajority ==>
              exists i :: FaultAt(recover, validators, digest, signatures, i, verdict)
  {
    var lastSigner := ZERO_ADDRESS;
    var i := 0;
    while i < |signatures|
      invariant 0 <= i <= |signatures|
      invariant WellSigned(recover, validators, digest, signatures[..i])
      invariant lastSigner == LastSigner(recover, validators, digest, signatures[..i])
    {
      var signer := recover(digest, signatures[i]);
      if signer.None? {
        assert FaultAt(recover, validators, digest, signatures, i, RecoveryFailed);
        return RecoveryFailed;
      }
      if signer.value <= lastSigner {
        assert FaultAt(recover, validators, digest, signatures, i, NonUniqueOrUnorderedSignatures);
        if i > 0 {
          assert signatures[..i][i - 1] == signatures[i - 1];
        }
        return NonUniqueOrUnorderedSignatures;
      }
      if signer.value !in validators {
        assert FaultAt(recover, validators, digest, signatures, i, InvalidValidatorOrSignatures);
        return InvalidValidatorOrSignatures;
      }
      LongerPrefix(recover, validators, digest, signatures, i);
      lastSigner := signer.value;
      i := i + 1;
    }
    assert signatures[..i] == signatures;
    verdict := if IsSupermajority(validators, |signatures|) then Valid else NoSupermajority;
  }

  lemma LongerPrefix(recover: Recover, validators: set<Address>, digest: Digest, signatures: seq<Signature>, i: nat)
    requires i < |signatures|
    requires WellSigned(recover, validators, digest, signatures[..i])
    requires recover(digest, signatures[i]).Some?
    requires recover(digest, signatures[i]).value > LastSigner(recover, validators, digest, signatures[..i])
    requires recover(digest, signatures[i]).value in validators
    ensures WellSigned(recover, validators, digest, signatures[..i + 1])
  {
    var prefix := signatures[..i];
    var longer := signatures[..i + 1];
    assert longer == prefix + [signatures[i]];
    forall j | 0 <= j < i
      ensures recover(digest, longer[j]).value < recover(digest, longer[i]).value
    {
      assert longer[j] == prefix[j];
      assert j < i - 1 ==> recover(digest, prefix[j]).value < recover(digest, prefix[i - 1]).value;
    }
  }

  /** No validator is counted twice: the number of signatures is the number of signers. */
  lemma {:induction false} SignatureCountIsSignerCount(
    recover: Recover, validators: set<Address>, digest: Digest, signatures: seq<Signature>)
    requires WellSigned(recover, validators, digest, signatures)
    ensures Signers(recover, digest, signatures) <= validators
    ensures |Signers(recover, digest, signatures)| == |signatures|
  {
    if signatures != [] {
      var n := |signatures| - 1;
      var prefix := signatures[..n];
      SignatureCountIsSignerCount(recover, validators, digest, prefix);
      var last := recover(digest, signatures[n]).value;
      assert forall i :: 0 <= i < n ==> prefix[i] == signatures[i];
      assert Signers(recover, digest, signatures) == Signers(recover, digest, prefix) + {last};
    }
  }

  lemma IntersectionBound<T>(a: set<T>, b: set<T>, all: set<T>)
    requires a <= all && b <= all
    ensures |a| + |b| <= |all| + |a * b|
  {
    SubsetCardinality(a + b, all);
    assert |a + b| + |a * b| == |a| + |b|;
  }

  /** Two accepted lists, even for different digests, share more than a third of the validators. */
  lemma QuorumIntersection(recover: Recover, validators: set<Address>,
                           digest: Digest, signatures: seq<Signature>,
                           digest': Digest, signatures': seq<Signature>)
    requires Accepts(recover, validators, digest, signatures)
    requires Accepts(recover, validators, digest', signatures')
    ensures 3 * |Signers(recover, digest, signatures) * Signers(recover, digest', signatures')| > |validators|
  {
    SignatureCountIsSignerCount(recover, validators, digest, signatures);
    SignatureCountIsSignerCount(recover, validators, digest', signatures');
    IntersectionBound(Signers(recover, digest, signatures), Signers(recover, digest', signatures'), validators);
  }

  /** With at most a third of the validators not honest, some honest validator signed both. */
  lemma QuorumsShareHonestSigner(recover: Recover, validators: set<Address>, honest: set<Address>,
                                 digest: Digest, signatures: seq<Signature>,
                                 digest': Digest, signatures': seq<Signature>)
    returns (v: Address)
    requires Accepts(recover, validators, digest, signatures)
    requires Accepts(recover, validators, digest', signatures')
    requires 3 * |validators - honest| <= |validators|
    ensures v in validators && v in honest
    ensures v in Signers(recover, digest, signatures) && v in Signers(recover, digest', signatures')
  {
    QuorumIntersection(recover, validators, digest, signatures, digest', signatures');
    SignatureCountIsSignerCount(recover, validators, digest, signatures);
    var shared := Signers(recover, digest, signatures) * Signers(recover, digest', signatures');
    if shared <= validators - honest {
      SubsetCardinality(shared, validators - honest);
    }
    v :| v in shared && v !in validators - honest;
  }

  /** With at most two thirds not honest, an accepted list contains an honest signature. */
  lemma QuorumHasHonestSigner(recover: Recover, validators: set<Address>, honest: set<Address>,
                              digest: Digest, signatures: seq<Signature>) returns (i: nat)
    requires Accepts(recover, validators, digest, signatures)
    requires 3 * |validators - honest| <= 2 * |validators|
    ensures i < |signatures| && recover(digest, signatures[i]).Some?
    ensures recover(digest, signatures[i]).value in validators * honest
  {
    SignatureCountIsSignerCount(recover, validators, digest, signatures);
    var signers := Signers(recover, digest, signatures);
    if signers <= validators - honest {
      SubsetCardinality(signers, validators - honest);
    }
    var v :| v in signers && v !in validators - honest;
    i :| 0 <= i < |signatures| && recover(digest, signatures[i]).Some? && recover(digest, signatures[i]).value == v;
  }

  lemma {:induction false} Ordering(s: set<Address>) returns (keys: seq<Address>)
    ensures Elements(keys) == s && |keys| == |s|
    ensures forall i, j :: 0 <= i < j < |keys| ==> keys[i] < keys[j]
    decreases s
  {
    if s == {} {
      keys := [];
    } else {
      var most := Greatest(s);
      var lower := Ordering(s - {most});
      assert forall i :: 0 <= i < |lower| ==> lower[i] in Elements(lower);
      keys := lower + [most];
      assert Elements(keys) == Elements(lower) + {most};
    }
  }

  lemma {:induction false} Greatest(s: set<Address>) returns (most: Address)
    requires s != {}
    ensures most in s && forall a :: a in s ==> a <= most
    decreases s
  {
    most :| most in s;
    var rest := s - {most};
    assert forall a :: a in s <==> a in rest || a == most;
    if rest != {} {
      var other := Greatest(rest);
      most := if other > most then other else most;
    }
  }

  /** The bound is tight: more than two thirds not honest get any digest accepted on their own. */
  lemma FaultyQuorumForges(recover: Recover, validators: set<Address>, honest: set<Address>,
                           digest: Digest, sign: Address -> Signature) returns (signatures: seq<Signature>)
    requires forall a :: a in validators - honest ==> recover(digest, sign(a)) == Some(a)
    requires ZERO_ADDRESS !in validators
    requires 3 * |validators - honest| > 2 * |validators|
    ensures Accepts(recover, validators, digest, signatures)
    ensures Signers(recover, digest, signatures) !! honest
  {
    var keys := Ordering(validators - honest);
    assert forall i :: 0 <= i < |keys| ==> keys[i] in Elements(keys);
    signatures := seq(|keys|, i requires 0 <= i < |keys| => sign(keys[i]));
  }

  /** The upgradeable validator manager; membership is all its enumerable set is used for. */
  class ValidatorManager {
    var validators: set<Address>

    constructor (initial: seq<Address>)
      ensures validators == Elements(initial)
    {
      validators := {};
      new;
      for i := 0 to |initial|
        invariant validators == Elements(initial[..i])
      {
        var added := AddValidator(initial[i]);
        assert initial[..i + 1] == initial[..i] + [initial[i]];
      }
      assert initial[..|initial|] == initial;
    }

    method AddValidator(user: Address) returns (added: bool)
      modifies this
      ensures validators == old(validators) + {user}
      ensures added <==> user !in old(validators)
    {
      added := user !in validators;
      validators := validators + {user};
    }

    method RemoveValidator(user: Address) returns (removed: bool)
      modifies this
      ensures validators == old(validators) - {user}
      ensures removed <==> user in old(validators)
    {
      removed := user in validators;
      validators := validators - {user};
    }

    method ValidateMessageWithSupermajority(recover: Recover, digest: Digest, signatures: seq<Signature>)
      returns (verdict: Verdict)
      ensures verdict == Valid <==> Accepts(recover, validators, digest, signatures)
    {
      verdict := ValidateSignaturesWithSupermajority(recover, validators, digest, signatures);
    }
  }
}
