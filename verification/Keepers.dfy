/** Counting how many signers are among the keepers by striking keepers off in place. */
module Keepers {
  import opened Base

  /** The places before n at which a value stands. */
  function PlacesOf(keepers: seq<Address>, signer: Address, n: nat): set<nat>
    requires n <= |keepers|
  {
    set j: nat | j < n && keepers[j] == signer
  }

  function StrikeUpTo(keepers: seq<Address>, signer: Address, n: nat): seq<Address>
    requires n <= |keepers|
  {
    seq(|keepers|, j requires 0 <= j < |keepers| => if j < n && keepers[j] == signer then ZERO_ADDRESS else keepers[j])
  }

  function Strike(keepers: seq<Address>, signer: Address): seq<Address> {
    StrikeUpTo(keepers, signer, |keepers|)
  }

  /** The keepers left after striking off the signers in order. */
  function StrikeAll(keepers: seq<Address>, signers: seq<Address>): (r: seq<Address>)
    ensures |r| == |keepers|
  {
    if signers == [] then keepers
    else Strike(StrikeAll(keepers, signers[..|signers| - 1]), signers[|signers| - 1])
  }

  /** The strikes made on the way. */
  function Strikes(keepers: seq<Address>, signers: seq<Address>): nat {
    if signers == [] then 0
    else
      var earlier := signers[..|signers| - 1];
      Strikes(keepers, earlier) + |PlacesOf(StrikeAll(keepers, earlier), signers[|signers| - 1], |keepers|)|
  }

  method ContainMAddresses(keepers: array<Address>, signers: seq<Address>, required: nat) returns (enough: bool)
    modifies keepers
    ensures enough <==> Strikes(old(keepers[..]), signers) >= required
    ensures keepers[..] == StrikeAll(old(keepers[..]), signers)
  {
    ghost var before := keepers[..];
    var m := 0;
    for i := 0 to |signers|
      invariant keepers[..] == StrikeAll(before, signers[..i])
      invariant m == Strikes(before, signers[..i])
    {
      assert signers[..i + 1][..i] == signers[..i];
      var struck := StrikeOff(keepers, signers[i]);
      m := m + struck;
    }
    assert signers[..|signers|] == signers;
    enough := m >= required;
  }

  /** The inner loop: every place of the signer is struck, not only the first. */
  method StrikeOff(keepers: array<Address>, signer: Address) returns (m: nat)
    modifies keepers
    ensures keepers[..] == Strike(old(keepers[..]), signer)
    ensures m == |PlacesOf(old(keepers[..]), signer, keepers.Length)|
  {
    ghost var before := keepers[..];
    m := 0;
    for j := 0 to keepers.Length
      invariant keepers[..] == StrikeUpTo(before, signer, j)
      invariant m == |PlacesOf(before, signer, j)|
    {
      assert keepers[j] == keepers[..][j] == before[j];
      OnePlaceMore(before, signer, j);
      if signer == keepers[j] {
        m := m + 1;
        keepers[j] := ZERO_ADDRESS;
      }
    }
  }

  lemma OnePlaceMore(keepers: seq<Address>, signer: Address, j: nat)
    requires j < |keepers|
    ensures |PlacesOf(keepers, signer, j + 1)| == |PlacesOf(keepers, signer, j)| + if keepers[j] == signer then 1 else 0
  {
    assert PlacesOf(keepers, signer, j + 1) == PlacesOf(keepers, signer, j) + if keepers[j] == signer then {j} else {};
  }

  // ----- what is counted

  /** The places of keepers that are among the signers. */
  function Matches(keepers: seq<Address>, signers: seq<Address>): set<nat> {
    set j: nat | j < |keepers| && keepers[j] in signers
  }

  function KeepersAt(keepers: seq<Address>, places: set<nat>): set<Address>
    requires forall j :: j in places ==> j < |keepers|
  {
    set j | j in places :: keepers[j]
  }

  lemma {:induction false} StruckKeepers(keepers: seq<Address>, signers: seq<Address>, j: nat)
    requires j < |keepers|
    ensures StrikeAll(keepers, signers)[j] == if keepers[j] in signers then ZERO_ADDRESS else keepers[j]
  {
    if signers != [] {
      var earlier := signers[..|signers| - 1];
      StruckKeepers(keepers, earlier, j);
      assert signers == earlier + [signers[|signers| - 1]];
    }
  }

  /** The strikes made at places struck before: a zero signer finds all of them again. */
  function Recounts(keepers: seq<Address>, signers: seq<Address>): nat {
    if signers == [] then 0
    else
      var earlier := signers[..|signers| - 1];
      Recounts(keepers, earlier) + if signers[|signers| - 1] == ZERO_ADDRESS then |Matches(keepers, earlier)| else 0
  }

  /** One more signer strikes the places it is first to match, and a zero signer all matched before. */
  lemma StruckBy(keepers: seq<Address>, earlier: seq<Address>, last: Address)
    ensures Matches(keepers, earlier) <= Matches(keepers, earlier + [last])
    ensures PlacesOf(StrikeAll(keepers, earlier), last, |keepers|) ==
            Matches(keepers, earlier + [last]) - Matches(keepers, earlier)
            + if last == ZERO_ADDRESS then Matches(keepers, earlier) else {}
  {
    forall j: nat | j < |keepers|
      ensures StrikeAll(keepers, earlier)[j] == if keepers[j] in earlier then ZERO_ADDRESS else keepers[j]
    {
      StruckKeepers(keepers, earlier, j);
    }
  }

  /** Each matching place is struck once, however often signers repeat, and once more for every zero
      signer that comes after. */
  lemma {:induction false} StrikesAreMatches(keepers: seq<Address>, signers: seq<Address>)
    ensures Strikes(keepers, signers) == |Matches(keepers, signers)| + Recounts(keepers, signers)
  {
    if signers != [] {
      var earlier, last := signers[..|signers| - 1], signers[|signers| - 1];
      assert signers == earlier + [last];
      StrikesAreMatches(keepers, earlier);
      StruckBy(keepers, earlier, last);
      var before, added := Matches(keepers, earlier), Matches(keepers, signers) - Matches(keepers, earlier);
      assert Matches(keepers, signers) == added + before;
      assert |PlacesOf(StrikeAll(keepers, earlier), last, |keepers|)| == |added| + if last == ZERO_ADDRESS then |before| else 0;
    }
  }

  /** Some signer is a keeper and a later one is the zero address. */
  ghost predicate ZeroAfterKeeper(keepers: seq<Address>, signers: seq<Address>) {
    exists i, i' :: 0 <= i < i' < |signers| && signers[i] in keepers && signers[i'] == ZERO_ADDRESS
  }

  lemma {:induction false} RecountsIff(keepers: seq<Address>, signers: seq<Address>)
    ensures Recounts(keepers, signers) > 0 <==> ZeroAfterKeeper(keepers, signers)
  {
    if signers != [] {
      var n := |signers| - 1;
      var earlier := signers[..n];
      RecountsIff(keepers, earlier);
      if ZeroAfterKeeper(keepers, earlier) {
        var i, i' :| 0 <= i < i' < n && earlier[i] in keepers && earlier[i'] == ZERO_ADDRESS;
        assert signers[i] in keepers && signers[i'] == ZERO_ADDRESS;
      }
      if j :| j in Matches(keepers, earlier) {
        var i :| 0 <= i < n && earlier[i] == keepers[j];
        assert signers[i] in keepers;
      }
      if i, i' :| 0 <= i < i' < |signers| && signers[i] in keepers && signers[i'] == ZERO_ADDRESS {
        var j: nat :| j < |keepers| && keepers[j] == signers[i];
        assert earlier[i] == signers[i];
        assert i' == n ==> j in Matches(keepers, earlier);
        assert i' < n ==> earlier[i'] == signers[i'];
      }
    }
  }

  ghost predicate DistinctAt(keepers: seq<Address>, places: set<nat>)
    requires forall j :: j in places ==> j < |keepers|
  {
    forall i, j :: i in places && j in places && i != j ==> keepers[i] != keepers[j]
  }

  lemma {:induction false} PlacesCoverKeepers(keepers: seq<Address>, places: set<nat>)
    requires forall j :: j in places ==> j < |keepers|
    ensures |KeepersAt(keepers, places)| <= |places|
    ensures DistinctAt(keepers, places) ==> |KeepersAt(keepers, places)| == |places|
    decreases places
  {
    if places != {} {
      var j :| j in places;
      PlacesCoverKeepers(keepers, places - {j});
      assert KeepersAt(keepers, places) == KeepersAt(keepers, places - {j}) + {keepers[j]};
    }
  }

  ghost predicate SigningKeepersListedOnce(keepers: seq<Address>, signers: seq<Address>) {
    forall i, j :: 0 <= i < j < |keepers| && keepers[i] in signers ==> keepers[i] != keepers[j]
  }

  lemma MatchesAreDistinctIff(keepers: seq<Address>, signers: seq<Address>)
    ensures |Elements(keepers) * Elements(signers)| <= |Matches(keepers, signers)|
    ensures |Elements(keepers) * Elements(signers)| == |Matches(keepers, signers)| <==>
            SigningKeepersListedOnce(keepers, signers)
  {
    var places := Matches(keepers, signers);
    assert KeepersAt(keepers, places) == Elements(keepers) * Elements(signers);
    PlacesCoverKeepers(keepers, places);
    if i, j :| 0 <= i < j < |keepers| && keepers[i] in signers && keepers[i] == keepers[j] {
      assert KeepersAt(keepers, places) == KeepersAt(keepers, places - {i});
      PlacesCoverKeepers(keepers, places - {i});
    }
  }

  /** The count is the number of distinct signers among the keepers exactly when no keeper that signed
      is listed twice and no zero signer comes after a signer that is a keeper. */
  lemma CountsDistinctSignersIff(keepers: seq<Address>, signers: seq<Address>)
    ensures Strikes(keepers, signers) == |Elements(keepers) * Elements(signers)| <==>
            SigningKeepersListedOnce(keepers, signers) && !ZeroAfterKeeper(keepers, signers)
  {
    StrikesAreMatches(keepers, signers);
    RecountsIff(keepers, signers);
    MatchesAreDistinctIff(keepers, signers);
  }

  /** For what the signature check passes on, which has no zero signer, and distinct keepers the answer
      is whether enough distinct keepers signed. */
  lemma DistinctKeepersAreCountedRight(keepers: seq<Address>, signers: seq<Address>, required: nat)
    requires ZERO_ADDRESS !in signers
    requires forall i, j :: 0 <= i < j < |keepers| ==> keepers[i] != keepers[j]
    ensures Strikes(keepers, signers) >= required <==> |Elements(keepers) * Elements(signers)| >= required
  {
    CountsDistinctSignersIff(keepers, signers);
  }

  /** One keeper that signs counts twice when a zero signer follows it, and once when it goes before. */
  lemma ZeroSignerCountsStruckKeepers(keeper: Address)
    requires keeper != ZERO_ADDRESS
    ensures Strikes([keeper], [keeper, ZERO_ADDRESS]) == 2
    ensures Strikes([keeper], [ZERO_ADDRESS, keeper]) == 1
    ensures Elements([keeper]) * Elements([keeper, ZERO_ADDRESS]) == {keeper}
  {
    var one, zero := [keeper], [ZERO_ADDRESS];
    var after, before := [keeper, ZERO_ADDRESS], [ZERO_ADDRESS, keeper];
    StrikesAreMatches(one, after);
    StrikesAreMatches(one, before);
    assert after[..1] == one && before[..1] == zero && one[..0] == [] && zero[..0] == [];
    assert Matches(one, one) == Matches(one, after) == Matches(one, before) == {0};
    assert Matches(one, []) == {};
    assert Recounts(one, one) == 0 && Recounts(one, zero) == 0;
    assert Recounts(one, after) == 1 && Recounts(one, before) == 0;
  }
}
