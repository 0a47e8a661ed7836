/** Positional notation in base 256. */
module Digits {
  import opened Base

  function Pow256(n: nat): (p: nat)
    ensures p > 0
  {
    if n == 0 then 1 else 256 * Pow256(n - 1)
  }

  function LittleEndian(v: nat, n: nat): (b: Bytes)
    ensures |b| == n
  {
    if n == 0 then [] else [v % 256] + LittleEndian(v / 256, n - 1)
  }

  function BigEndian(v: nat, n: nat): (b: Bytes)
    ensures |b| == n
  {
    if n == 0 then [] else BigEndian(v / 256, n - 1) + [v % 256]
  }

  function FromLittleEndian(b: Bytes): nat {
    if b == [] then 0 else b[0] + 256 * FromLittleEndian(b[1..])
  }

  function FromBigEndian(b: Bytes): nat {
    if b == [] then 0 else 256 * FromBigEndian(b[..|b| - 1]) + b[|b| - 1]
  }

  function Reverse(b: Bytes): (r: Bytes)
    ensures |r| == |b|
    ensures forall i :: 0 <= i < |b| ==> r[i] == b[|b| - 1 - i]
  {
    seq(|b|, i requires 0 <= i < |b| => b[|b| - 1 - i])
  }

  lemma {:induction false} LittleEndianDecodes(v: nat, n: nat)
    requires v < Pow256(n)
    ensures FromLittleEndian(LittleEndian(v, n)) == v
  {
    if n > 0 {
      LittleEndianDecodes(v / 256, n - 1);
      assert LittleEndian(v, n)[1..] == LittleEndian(v / 256, n - 1);
    }
  }

  lemma {:induction false} LittleEndianEncodes(b: Bytes)
    ensures LittleEndian(FromLittleEndian(b), |b|) == b
    ensures FromLittleEndian(b) < Pow256(|b|)
  {
    if b != [] {
      LittleEndianEncodes(b[1..]);
      FirstDigit(b[0], FromLittleEndian(b[1..]));
      assert b == [b[0]] + b[1..];
    }
  }

  lemma FirstDigit(digit: Byte, rest: nat)
    ensures (digit + 256 * rest) % 256 == digit && (digit + 256 * rest) / 256 == rest
  {
  }

  /** Reading a number backwards in one order is reading it forwards in the other. */
  lemma {:induction false} ReverseSwapsOrder(b: Bytes)
    ensures FromBigEndian(Reverse(b)) == FromLittleEndian(b)
  {
    if b != [] {
      ReverseSwapsOrder(b[1..]);
      assert Reverse(b)[..|b| - 1] == Reverse(b[1..]);
    }
  }

  lemma {:induction false} BigIsReversedLittle(v: nat, n: nat)
    ensures BigEndian(v, n) == Reverse(LittleEndian(v, n))
  {
    if n > 0 {
      BigIsReversedLittle(v / 256, n - 1);
    }
  }

  /** Fewer digits are the lowest ones. */
  lemma {:induction false} FewerDigits(v: nat, n: nat, more: nat)
    requires n <= more
    ensures LittleEndian(v, more)[..n] == LittleEndian(v, n)
  {
    if n > 0 {
      FewerDigits(v / 256, n - 1, more - 1);
      assert LittleEndian(v, more)[..n] == [v % 256] + LittleEndian(v / 256, more - 1)[..n - 1];
    }
  }

  lemma BigEndianDecodes(v: nat, n: nat)
    requires v < Pow256(n)
    ensures FromBigEndian(BigEndian(v, n)) == v
  {
    BigIsReversedLittle(v, n);
    ReverseSwapsOrder(LittleEndian(v, n));
    LittleEndianDecodes(v, n);
  }

  lemma {:induction false} SplitBigEndian(b: Bytes, n: nat)
    requires n <= |b|
    ensures FromBigEndian(b) == FromBigEndian(b[..|b| - n]) * Pow256(n) + FromBigEndian(b[|b| - n..])
    ensures FromBigEndian(b[|b| - n..]) < Pow256(n)
  {
    if n == 0 {
      assert b[..|b|] == b && b[|b|..] == [];
    } else {
      var front, tail := b[..|b| - 1], b[|b| - n..];
      SplitBigEndian(front, n - 1);
      assert tail[..n - 1] == front[|front| - (n - 1)..];
      assert front[..|front| - (n - 1)] == b[..|b| - n];
      Regroup(FromBigEndian(b[..|b| - n]), Pow256(n - 1));
    }
  }

  lemma Regroup(high: nat, p: nat)
    ensures 256 * (high * p) == high * (256 * p)
  {
  }

  /** Truncating a big-endian number keeps its last digits. */
  lemma TruncationKeepsTail(b: Bytes, n: nat)
    requires n <= |b|
    ensures FromBigEndian(b) % Pow256(n) == FromBigEndian(b[|b| - n..])
  {
    SplitBigEndian(b, n);
    ModIsRemainder(FromBigEndian(b), Pow256(n), FromBigEndian(b[..|b| - n]), FromBigEndian(b[|b| - n..]));
  }

  lemma ModIsRemainder(a: nat, m: nat, q: nat, r: nat)
    requires m > 0 && r < m && a == q * m + r
    ensures a % m == r
  {
    var q' := a / m;
    assert a == q' * m + a % m;
    MultiplesAreApart(m, q, q');
  }

  lemma MultiplesAreApart(m: nat, q: nat, q': nat)
    ensures q < q' ==> q * m + m <= q' * m
    ensures q' < q ==> q' * m + m <= q * m
  {
    if q < q' {
      Spread(m, q, q' - q - 1);
    } else if q' < q {
      Spread(m, q', q - q' - 1);
    }
  }

  lemma Spread(m: nat, q: nat, k: nat)
    ensures (q + 1 + k) * m == q * m + m + k * m
    ensures k * m >= 0
  {
  }
}

/** The Poly wire format used by the lock proxy, on byte strings; None is a revert. */
module ZeroCopy {
  import opened Base
  import opened Digits

  const UINT64_LIMIT: nat := 0x1_0000_0000_0000_0000
  const UINT255_LIMIT: nat := 0x8000_0000_0000_0000_0000_0000_0000_0000_0000_0000_0000_0000_0000_0000_0000_0000

  // ----- writing

  function WriteVarUint(v: nat): Bytes
    requires v < UINT64_LIMIT
  {
    if v < 0xFD then LittleEndian(v, 1)
    else if v <= 0xFFFF then [0xFD] + LittleEndian(v, 2)
    else if v <= 0xFFFF_FFFF then [0xFE] + LittleEndian(v, 4)
    else [0xFF] + LittleEndian(v, 8)
  }

  /** The length is truncated to 64 bits. */
  function WriteVarBytes(data: Bytes): Bytes {
    WriteVarUint(|data| % UINT64_LIMIT) + data
  }

  function WriteUint255(v: nat): Option<Bytes> {
    if v < UINT255_LIMIT then Some(LittleEndian(v, 32)) else None
  }

  // ----- reading: the value and the offset after it

  function NextUint(buff: Bytes, offset: nat, n: nat): Option<(nat, nat)> {
    if offset + n <= |buff| then Some((FromLittleEndian(buff[offset..offset + n]), offset + n)) else None
  }

  function NextVarUint(buff: Bytes, offset: nat): Option<(nat, nat)> {
    if offset >= |buff| then None
    else
      match buff[offset]
      case 0xFD => InRange(NextUint(buff, offset + 1, 2), 0xFD, 0xFFFF)
      case 0xFE => InRange(NextUint(buff, offset + 1, 4), 0x1_0000, 0xFFFF_FFFF)
      case 0xFF => InRange(NextUint(buff, offset + 1, 8), 0x1_0000_0000, UINT64_LIMIT - 1)
      case v => Some((v, offset + 1))
  }

  function InRange(read: Option<(nat, nat)>, low: nat, high: nat): Option<(nat, nat)> {
    if read.Some? && low <= read.value.0 <= high then read else None
  }

  /** The bounds check `offset < offset + len` turns empty byte strings away. */
  function NextVarBytes(buff: Bytes, offset: nat): Option<(Bytes, nat)> {
    match NextVarUint(buff, offset)
    case None => None
    case Some((len, start)) =>
      if start + len <= |buff| && start < start + len then Some((buff[start..start + len], start + len)) else None
  }

  function NextUint255(buff: Bytes, offset: nat): Option<(nat, nat)> {
    InRange(NextUint(buff, offset, 32), 0, UINT255_LIMIT - 1)
  }

  // ----- the transfer arguments

  datatype TransferTxArgs = TransferTxArgs(
    fromAssetHash: Bytes, toAssetHash: Bytes, toAddress: Bytes, amount: nat,
    feeAmount: nat, feeAddress: Bytes, fromAddress: Bytes, nonce: nat)

  function Serialize(args: TransferTxArgs): Option<Bytes> {
    var amount, fee, nonce := WriteUint255(args.amount), WriteUint255(args.feeAmount), WriteUint255(args.nonce);
    if amount.None? || fee.None? || nonce.None? then None
    else Some(WriteVarBytes(args.fromAssetHash) + WriteVarBytes(args.toAssetHash) + WriteVarBytes(args.toAddress)
              + amount.value + fee.value + WriteVarBytes(args.feeAddress) + WriteVarBytes(args.fromAddress) + nonce.value)
  }

  /** The four fields the unlocking side reads. */
  datatype Unlock = Unlock(fromAssetHash: Bytes, toAssetHash: Bytes, toAddress: Bytes, amount: nat)

  /** Two fields in a row. */
  function TwoFields(buff: Bytes, offset: nat): Option<(Bytes, Bytes, nat)> {
    match NextVarBytes(buff, offset)
    case None => None
    case Some((first, off)) =>
      match NextVarBytes(buff, off)
      case None => None
      case Some((second, next)) => Some((first, second, next))
  }

  function Deserialize(buff: Bytes): Option<Unlock> {
    match TwoFields(buff, 0)
    case None => None
    case Some((fromAssetHash, toAssetHash, off)) =>
      match NextVarBytes(buff, off)
      case None => None
      case Some((toAddress, off)) =>
        match NextUint255(buff, off)
        case None => None
        case Some((amount, _)) => Some(Unlock(fromAssetHash, toAssetHash, toAddress, amount))
  }

  // ----- variable-length integers are canonical

  lemma PowersOf256()
    ensures Pow256(1) == 0x100 && Pow256(2) == 0x1_0000 && Pow256(4) == 0x1_0000_0000 && Pow256(8) == UINT64_LIMIT
  {
    assert Pow256(0) == 1;
    assert Pow256(3) == 0x100_0000;
    assert Pow256(5) == 0x100_0000_0000;
    assert Pow256(6) == 0x1_0000_0000_0000;
    assert Pow256(7) == 0x100_0000_0000_0000;
  }

  lemma PowerOf256To32()
    ensures Pow256(32) == UINT256_LIMIT
  {
    PowersOf256();
    PowerSum(8, 8);
    PowerSum(16, 16);
  }

  lemma {:induction false} PowerSum(m: nat, n: nat)
    ensures Pow256(m + n) == Pow256(m) * Pow256(n)
  {
    if m > 0 {
      PowerSum(m - 1, n);
    }
  }

  /** Reading n digits at an offset succeeds exactly on an encoding of the result. */
  lemma NextUintReadsEncoding(buff: Bytes, offset: nat, n: nat, v: nat)
    requires v < Pow256(n)
    ensures NextUint(buff, offset, n) == Some((v, offset + n)) <==>
            offset + n <= |buff| && buff[offset..offset + n] == LittleEndian(v, n)
  {
    if offset + n <= |buff| {
      LittleEndianEncodes(buff[offset..offset + n]);
      LittleEndianDecodes(v, n);
    }
  }

  lemma NextUintBound(buff: Bytes, offset: nat, n: nat)
    requires NextUint(buff, offset, n).Some?
    ensures NextUint(buff, offset, n).value.0 < Pow256(n)
  {
    LittleEndianEncodes(buff[offset..offset + n]);
  }

  /** The tag and digit count of an encoding. */
  lemma TaggedSlice(buff: Bytes, offset: nat, n: nat, tag: Byte, digits: Bytes)
    requires |digits| == n
    ensures (offset + 1 + n <= |buff| && buff[offset..offset + 1 + n] == [tag] + digits) <==>
            (offset + 1 + n <= |buff| && buff[offset] == tag && buff[offset + 1..offset + 1 + n] == digits)
  {
    if offset + 1 + n <= |buff| {
      assert buff[offset..offset + 1 + n] == [buff[offset]] + buff[offset + 1..offset + 1 + n];
      assert ([tag] + digits)[1..] == digits;
      assert buff[offset..offset + 1 + n][1..] == buff[offset + 1..offset + 1 + n];
    }
  }

  lemma VarUintLength(v: nat)
    requires v < UINT64_LIMIT
    ensures |WriteVarUint(v)| == if v < 0xFD then 1 else if v <= 0xFFFF then 3 else if v <= 0xFFFF_FFFF then 5 else 9
    ensures WriteVarUint(v)[0] == if v < 0xFD then v else if v <= 0xFFFF then 0xFD else if v <= 0xFFFF_FFFF then 0xFE else 0xFF
  {
  }

  /** Reading undoes writing, at any offset. */
  lemma WrittenIsRead(buff: Bytes, offset: nat, v: nat)
    requires v < UINT64_LIMIT
    requires offset + |WriteVarUint(v)| <= |buff| && buff[offset..offset + |WriteVarUint(v)|] == WriteVarUint(v)
    ensures NextVarUint(buff, offset) == Some((v, offset + |WriteVarUint(v)|))
  {
    PowersOf256();
    VarUintLength(v);
    assert buff[offset] == buff[offset..offset + |WriteVarUint(v)|][0];
    if v >= 0xFD {
      var n := |WriteVarUint(v)| - 1;
      TaggedSlice(buff, offset, n, WriteVarUint(v)[0], LittleEndian(v, n));
      NextUintReadsEncoding(buff, offset + 1, n, v);
    }
  }

  /** Only written encodings are read. */
  lemma ReadIsWritten(buff: Bytes, offset: nat)
    requires NextVarUint(buff, offset).Some?
    ensures var (v, end) := NextVarUint(buff, offset).value;
            offset <= end <= |buff| && v < UINT64_LIMIT && buff[offset..end] == WriteVarUint(v)
  {
    PowersOf256();
    var (v, end) := NextVarUint(buff, offset).value;
    var tag := buff[offset];
    if tag < 0xFD {
      assert LittleEndian(v, 1) == [v % 256] + LittleEndian(v / 256, 0);
      assert buff[offset..end] == [v];
    } else {
      var n := end - offset - 1;
      NextUintBound(buff, offset + 1, n);
      NextUintReadsEncoding(buff, offset + 1, n, v);
      TaggedSlice(buff, offset, n, tag, LittleEndian(v, n));
    }
  }

  /** A byte string is accepted as a variable-length integer exactly when the bytes consumed are the
      encoding of the value returned; so each value has one encoding, and accepted ones are its. */
  lemma VarUintIsCanonical(buff: Bytes, offset: nat, v: nat, end: nat)
    ensures NextVarUint(buff, offset) == Some((v, end)) <==>
            v < UINT64_LIMIT && offset <= end <= |buff| && buff[offset..end] == WriteVarUint(v)
  {
    if NextVarUint(buff, offset) == Some((v, end)) {
      ReadIsWritten(buff, offset);
    }
    if v < UINT64_LIMIT && offset <= end <= |buff| && buff[offset..end] == WriteVarUint(v) {
      WrittenIsRead(buff, offset, v);
    }
  }

  /** No encoding is a prefix of another. */
  lemma VarUintIsPrefixFree(v: nat, w: nat)
    requires v < UINT64_LIMIT && w < UINT64_LIMIT
    requires WriteVarUint(v) <= WriteVarUint(w)
    ensures v == w
  {
    VarUintIsCanonical(WriteVarUint(w), 0, v, |WriteVarUint(v)|);
    VarUintIsCanonical(WriteVarUint(w), 0, w, |WriteVarUint(w)|);
  }

  // ----- fields and whole messages

  /** A field within a longer message. */
  ghost predicate At(buff: Bytes, offset: nat, field: Bytes) {
    offset + |field| <= |buff| && buff[offset..offset + |field|] == field
  }

  lemma AtParts(buff: Bytes, offset: nat, a: Bytes, b: Bytes)
    requires At(buff, offset, a + b)
    ensures At(buff, offset, a) && At(buff, offset + |a|, b)
  {
    var both := buff[offset..offset + |a + b|];
    assert buff[offset..offset + |a|] == both[..|a|];
    assert buff[offset + |a|..offset + |a| + |b|] == both[|a|..];
  }

  predicate FitsField(data: Bytes) {
    0 < |data| < UINT64_LIMIT
  }

  lemma VarBytesRoundTrip(buff: Bytes, offset: nat, data: Bytes)
    requires At(buff, offset, WriteVarBytes(data)) && FitsField(data)
    ensures NextVarBytes(buff, offset) == Some((data, offset + |WriteVarBytes(data)|))
  {
    LengthThenData(data);
    FieldIsRead(buff, offset, data, WriteVarUint(|data|));
  }

  lemma LengthThenData(data: Bytes)
    requires FitsField(data)
    ensures WriteVarBytes(data) == WriteVarUint(|data|) + data
  {
  }

  lemma FieldIsRead(buff: Bytes, offset: nat, data: Bytes, length: Bytes)
    requires FitsField(data) && length == WriteVarUint(|data|)
    requires At(buff, offset, length + data)
    ensures NextVarBytes(buff, offset) == Some((data, offset + |length + data|))
  {
    AtParts(buff, offset, length, data);
    assert NextVarUint(buff, offset) == Some((|data|, offset + |length|)) by {
      WrittenIsRead(buff, offset, |data|);
    }
    DataAfterLength(buff, offset, offset + |length|, data);
  }

  lemma DataAfterLength(buff: Bytes, offset: nat, start: nat, data: Bytes)
    requires NextVarUint(buff, offset) == Some((|data|, start)) && At(buff, start, data) && data != []
    ensures NextVarBytes(buff, offset) == Some((data, start + |data|))
  {
  }

  /** Whatever is read as a field is non-empty and of 64-bit length. */
  lemma VarBytesReadFits(buff: Bytes, offset: nat)
    requires NextVarBytes(buff, offset).Some?
    ensures FitsField(NextVarBytes(buff, offset).value.0)
  {
    ReadIsWritten(buff, offset);
  }

  lemma Uint255RoundTrip(buff: Bytes, offset: nat, v: nat)
    requires v < UINT255_LIMIT && At(buff, offset, LittleEndian(v, 32))
    ensures NextUint255(buff, offset) == Some((v, offset + 32))
  {
    PowerOf256To32();
    NextUintReadsEncoding(buff, offset, 32, v);
  }

  /** Where the four fields read back sit in a serialized message. */
  lemma SerializedLayout(args: TransferTxArgs, suffix: Bytes)
    requires Serialize(args).Some?
    ensures var buff := Serialize(args).value + suffix;
            var a, b, c := WriteVarBytes(args.fromAssetHash), WriteVarBytes(args.toAssetHash), WriteVarBytes(args.toAddress);
            && At(buff, 0, a) && At(buff, |a|, b) && At(buff, |a| + |b|, c)
            && At(buff, |a| + |b| + |c|, LittleEndian(args.amount, 32))
  {
    var buff := Serialize(args).value + suffix;
    var a, b, c := WriteVarBytes(args.fromAssetHash), WriteVarBytes(args.toAssetHash), WriteVarBytes(args.toAddress);
    var amount := LittleEndian(args.amount, 32);
    var head := a + b + c + amount;
    assert head <= buff;
    assert At(buff, 0, head);
    AtParts(buff, 0, a + b + c, amount);
    AtParts(buff, 0, a + b, c);
    AtParts(buff, 0, a, b);
  }

  /** The fields that only the receiving chain reads follow the amount: fee, fee address, sender and
      nonce, ending where the message ends. */
  lemma TailLayout(args: TransferTxArgs, suffix: Bytes) returns (off: nat, mid: nat, off': nat)
    requires Serialize(args).Some?
    ensures At(Serialize(args).value + suffix, off, LittleEndian(args.feeAmount, 32))
    ensures At(Serialize(args).value + suffix, off + 32, WriteVarBytes(args.feeAddress))
    ensures mid == off + 32 + |WriteVarBytes(args.feeAddress)|
    ensures At(Serialize(args).value + suffix, mid, WriteVarBytes(args.fromAddress))
    ensures off' == mid + |WriteVarBytes(args.fromAddress)|
    ensures At(Serialize(args).value + suffix, off', LittleEndian(args.nonce, 32))
    ensures off' + 32 == |Serialize(args).value|
  {
    var message := Serialize(args).value;
    var buff := message + suffix;
    var d, e := WriteVarBytes(args.feeAddress), WriteVarBytes(args.fromAddress);
    var fee, nonce := LittleEndian(args.feeAmount, 32), LittleEndian(args.nonce, 32);
    var head := WriteVarBytes(args.fromAssetHash) + WriteVarBytes(args.toAssetHash) + WriteVarBytes(args.toAddress)
                + LittleEndian(args.amount, 32);
    assert message == head + fee + d + e + nonce;
    assert At(buff, 0, message);
    AtParts(buff, 0, head + fee + d + e, nonce);
    AtParts(buff, 0, head + fee + d, e);
    AtParts(buff, 0, head + fee, d);
    AtParts(buff, 0, head, fee);
    off := |head|;
    mid := off + 32 + |d|;
    off' := mid + |e|;
  }

  lemma TailIsReadBack(args: TransferTxArgs, suffix: Bytes) returns (off: nat, off': nat)
    requires Serialize(args).Some? && FitsField(args.feeAddress) && FitsField(args.fromAddress)
    ensures var message := Serialize(args).value;
            && NextUint255(message + suffix, off) == Some((args.feeAmount, off + 32))
            && TwoFields(message + suffix, off + 32) == Some((args.feeAddress, args.fromAddress, off'))
            && NextUint255(message + suffix, off') == Some((args.nonce, |message|))
  {
    var mid;
    off, mid, off' := TailLayout(args, suffix);
    TailLaidOutIsRead(Serialize(args).value + suffix, args, off, mid, off');
  }

  lemma TailLaidOutIsRead(buff: Bytes, args: TransferTxArgs, off: nat, mid: nat, off': nat)
    requires FitsField(args.feeAddress) && FitsField(args.fromAddress)
    requires args.feeAmount < UINT255_LIMIT && args.nonce < UINT255_LIMIT
    requires At(buff, off, LittleEndian(args.feeAmount, 32))
    requires At(buff, off + 32, WriteVarBytes(args.feeAddress)) && mid == off + 32 + |WriteVarBytes(args.feeAddress)|
    requires At(buff, mid, WriteVarBytes(args.fromAddress)) && off' == mid + |WriteVarBytes(args.fromAddress)|
    requires At(buff, off', LittleEndian(args.nonce, 32))
    ensures NextUint255(buff, off) == Some((args.feeAmount, off + 32))
    ensures TwoFields(buff, off + 32) == Some((args.feeAddress, args.fromAddress, off'))
    ensures NextUint255(buff, off') == Some((args.nonce, off' + 32))
  {
    Uint255RoundTrip(buff, off, args.feeAmount);
    PairIsRead(buff, off + 32, args.feeAddress, args.fromAddress, mid, off');
    Uint255RoundTrip(buff, off', args.nonce);
  }

  /** Serializing succeeds exactly when the three numbers are below 2^255. Deserializing what was
      serialized, with anything appended, returns the original fields exactly when the three byte
      fields are non-empty and their lengths fit 64 bits: an empty field is written but not read. */
  lemma TransferArgsRoundTrip(args: TransferTxArgs, suffix: Bytes)
    ensures Serialize(args).Some? <==>
            args.amount < UINT255_LIMIT && args.feeAmount < UINT255_LIMIT && args.nonce < UINT255_LIMIT
    ensures Serialize(args).Some? ==>
              (Deserialize(Serialize(args).value + suffix) ==
               Some(Unlock(args.fromAssetHash, args.toAssetHash, args.toAddress, args.amount)) <==>
               FitsField(args.fromAssetHash) && FitsField(args.toAssetHash) && FitsField(args.toAddress))
  {
    if Serialize(args).Some? {
      DeserializedFits(Serialize(args).value + suffix);
      if FitsField(args.fromAssetHash) && FitsField(args.toAssetHash) && FitsField(args.toAddress) {
        SerializedIsRead(args, suffix);
      }
    }
  }

  lemma PairIsRead(buff: Bytes, off: nat, first: Bytes, second: Bytes, off': nat, end: nat)
    requires FitsField(first) && FitsField(second)
    requires At(buff, off, WriteVarBytes(first)) && off' == off + |WriteVarBytes(first)|
    requires At(buff, off', WriteVarBytes(second)) && end == off' + |WriteVarBytes(second)|
    ensures TwoFields(buff, off) == Some((first, second, end))
  {
    assert NextVarBytes(buff, off) == Some((first, off')) by {
      VarBytesRoundTrip(buff, off, first);
    }
    assert NextVarBytes(buff, off') == Some((second, end)) by {
      VarBytesRoundTrip(buff, off', second);
    }
  }

  lemma LaidOutIsRead(buff: Bytes, unlock: Unlock, off: nat, off': nat, off'': nat)
    requires FitsField(unlock.fromAssetHash) && FitsField(unlock.toAssetHash) && FitsField(unlock.toAddress)
    requires unlock.amount < UINT255_LIMIT
    requires At(buff, 0, WriteVarBytes(unlock.fromAssetHash)) && off == |WriteVarBytes(unlock.fromAssetHash)|
    requires At(buff, off, WriteVarBytes(unlock.toAssetHash)) && off' == off + |WriteVarBytes(unlock.toAssetHash)|
    requires At(buff, off', WriteVarBytes(unlock.toAddress)) && off'' == off' + |WriteVarBytes(unlock.toAddress)|
    requires At(buff, off'', LittleEndian(unlock.amount, 32))
    ensures Deserialize(buff) == Some(unlock)
  {
    assert TwoFields(buff, 0) == Some((unlock.fromAssetHash, unlock.toAssetHash, off')) by {
      PairIsRead(buff, 0, unlock.fromAssetHash, unlock.toAssetHash, off, off');
    }
    assert NextVarBytes(buff, off') == Some((unlock.toAddress, off'')) by {
      VarBytesRoundTrip(buff, off', unlock.toAddress);
    }
    Uint255RoundTrip(buff, off'', unlock.amount);
  }

  lemma SerializedIsRead(args: TransferTxArgs, suffix: Bytes)
    requires Serialize(args).Some?
    requires FitsField(args.fromAssetHash) && FitsField(args.toAssetHash) && FitsField(args.toAddress)
    ensures Deserialize(Serialize(args).value + suffix) ==
            Some(Unlock(args.fromAssetHash, args.toAssetHash, args.toAddress, args.amount))
  {
    SerializedLayout(args, suffix);
    var a, b, c := |WriteVarBytes(args.fromAssetHash)|, |WriteVarBytes(args.toAssetHash)|, |WriteVarBytes(args.toAddress)|;
    LaidOutIsRead(Serialize(args).value + suffix,
                  Unlock(args.fromAssetHash, args.toAssetHash, args.toAddress, args.amount), a, a + b, a + b + c);
  }

  lemma DeserializedFits(buff: Bytes)
    ensures Deserialize(buff).Some? ==>
              && FitsField(Deserialize(buff).value.fromAssetHash)
              && FitsField(Deserialize(buff).value.toAssetHash)
              && FitsField(Deserialize(buff).value.toAddress)
  {
    if Deserialize(buff).Some? {
      VarBytesReadFits(buff, 0);
      var off := NextVarBytes(buff, 0).value.1;
      VarBytesReadFits(buff, off);
      VarBytesReadFits(buff, NextVarBytes(buff, off).value.1);
    }
  }

  // ----- exactly what is accepted

  /** A field is read exactly when the bytes are the encoding of one that is not empty. */
  lemma VarBytesIsCanonical(buff: Bytes, offset: nat, data: Bytes, end: nat)
    ensures NextVarBytes(buff, offset) == Some((data, end)) <==>
            FitsField(data) && end == offset + |WriteVarBytes(data)| && At(buff, offset, WriteVarBytes(data))
  {
    if NextVarBytes(buff, offset) == Some((data, end)) {
      ReadIsWritten(buff, offset);
      var (len, start) := NextVarUint(buff, offset).value;
      LengthThenData(data);
      assert buff[offset..end] == buff[offset..start] + buff[start..end];
    }
    if FitsField(data) && end == offset + |WriteVarBytes(data)| && At(buff, offset, WriteVarBytes(data)) {
      VarBytesRoundTrip(buff, offset, data);
    }
  }

  /** A number is read exactly when the bytes are the encoding of one below 2^255. */
  lemma Uint255IsCanonical(buff: Bytes, offset: nat, v: nat, end: nat)
    ensures 2 * UINT255_LIMIT == Pow256(32)
    ensures NextUint255(buff, offset) == Some((v, end)) <==>
            2 * v < Pow256(32) && end == offset + 32 && At(buff, offset, LittleEndian(v, 32))
  {
    PowerOf256To32();
    if 2 * v < Pow256(32) {
      NextUintReadsEncoding(buff, offset, 32, v);
    }
  }

  ghost predicate LaidOut(buff: Bytes, unlock: Unlock) {
    var a, b, c := WriteVarBytes(unlock.fromAssetHash), WriteVarBytes(unlock.toAssetHash), WriteVarBytes(unlock.toAddress);
    && At(buff, 0, a) && At(buff, |a|, b) && At(buff, |a| + |b|, c)
    && At(buff, |a| + |b| + |c|, LittleEndian(unlock.amount, 32))
  }

  lemma AcceptedIsLaidOut(buff: Bytes)
    requires Deserialize(buff).Some?
    ensures LaidOut(buff, Deserialize(buff).value) && Deserialize(buff).value.amount < UINT255_LIMIT
  {
    var (first, off) := NextVarBytes(buff, 0).value;
    VarBytesIsCanonical(buff, 0, first, off);
    var (second, off') := NextVarBytes(buff, off).value;
    VarBytesIsCanonical(buff, off, second, off');
    var (third, off'') := NextVarBytes(buff, off').value;
    VarBytesIsCanonical(buff, off', third, off'');
    var (amount, end) := NextUint255(buff, off'').value;
    Uint255IsCanonical(buff, off'', amount, end);
  }

  /** The unlocking side accepts exactly the messages that begin with the encodings of three fields that are not
      empty and of an amount, whatever follows. */
  lemma DeserializesIff(buff: Bytes, unlock: Unlock)
    ensures Deserialize(buff) == Some(unlock) <==>
            && FitsField(unlock.fromAssetHash) && FitsField(unlock.toAssetHash) && FitsField(unlock.toAddress)
            && unlock.amount < UINT255_LIMIT && LaidOut(buff, unlock)
  {
    if Deserialize(buff) == Some(unlock) {
      AcceptedIsLaidOut(buff);
      DeserializedFits(buff);
    } else if FitsField(unlock.fromAssetHash) && FitsField(unlock.toAssetHash) && FitsField(unlock.toAddress) {
      if unlock.amount < UINT255_LIMIT && LaidOut(buff, unlock) {
        LaidOutIsAccepted(buff, unlock);
      }
    }
  }

  lemma LaidOutIsAccepted(buff: Bytes, unlock: Unlock)
    requires FitsField(unlock.fromAssetHash) && FitsField(unlock.toAssetHash) && FitsField(unlock.toAddress)
    requires unlock.amount < UINT255_LIMIT && LaidOut(buff, unlock)
    ensures Deserialize(buff) == Some(unlock)
  {
    var off := |WriteVarBytes(unlock.fromAssetHash)|;
    var off' := off + |WriteVarBytes(unlock.toAssetHash)|;
    LaidOutIsRead(buff, unlock, off, off', off' + |WriteVarBytes(unlock.toAddress)|);
  }
}
