/** The assembly of the wire format and of `slice`, in place on byte-addressed memory. */
module EvmMemory {
  import opened Base
  import opened Digits
  import opened ZeroCopy

  const FREE_POINTER: nat := 0x40

  // ----- reading memory; m is its whole content

  function LoadNumber(m: Bytes, p: nat): nat
    requires p + 32 <= |m|
  {
    FromBigEndian(m[p..p + 32])
  }

  function FreePointer(m: Bytes): nat
    requires FREE_POINTER + 32 <= |m|
  {
    LoadNumber(m, FREE_POINTER)
  }

  /** There is memory for n more bytes, and addresses are 256-bit numbers. */
  ghost predicate Room(m: Bytes, n: nat) {
    && FREE_POINTER + 32 <= |m| < UINT256_LIMIT
    && FREE_POINTER + 32 <= FreePointer(m) && FreePointer(m) + n <= |m|
  }

  /** A byte array, its length word first, lies between the reserved words and the free memory. */
  ghost predicate Allocated(m: Bytes, p: nat) {
    && FREE_POINTER + 32 <= p && p + 32 <= |m|
    && p + 32 + LoadNumber(m, p) <= FreePointer(m) <= |m|
  }

  ghost function Content(m: Bytes, p: nat): Bytes
    requires Allocated(m, p)
  {
    m[p + 32..p + 32 + LoadNumber(m, p)]
  }

  lemma SliceOfSlice(m: Bytes, p: nat, length: nat, start: nat, n: nat)
    requires p + length <= |m| && start + n <= length
    ensures m[p..p + length][start..start + n] == m[p + start..p + start + n]
  {
    var part, whole := m[p..p + length][start..start + n], m[p + start..p + start + n];
    assert forall k :: 0 <= k < n ==> part[k] == whole[k];
  }

  predicate Reserved(i: int) {
    FREE_POINTER <= i < FREE_POINTER + 32
  }

  /** Free memory only shrinks, and below it nothing changes but the free memory pointer. */
  ghost predicate Preserved(m: Bytes, m': Bytes) {
    && FREE_POINTER + 32 <= |m| == |m'|
    && FreePointer(m) <= FreePointer(m') <= |m|
    && forall i :: 0 <= i < FreePointer(m) && !Reserved(i) ==> m'[i] == m[i]
  }

  lemma PreservedTransitive(m: Bytes, m': Bytes, m'': Bytes)
    requires Preserved(m, m') && Preserved(m', m'')
    ensures Preserved(m, m'')
  {
  }

  /** Arrays survive what is allocated after them. */
  lemma AllocatedSurvives(m: Bytes, m': Bytes, p: nat)
    requires Allocated(m, p) && Preserved(m, m')
    ensures Allocated(m', p) && Content(m', p) == Content(m, p)
  {
    assert m'[p..p + 32] == m[p..p + 32];
  }

  /** c is m but for the cells from low to high. */
  ghost predicate Outside(m: Bytes, c: Bytes, low: nat, high: nat) {
    && |c| == |m|
    && (forall i :: 0 <= i < low && i < |m| ==> c[i] == m[i])
    && (forall i :: high <= i < |m| ==> c[i] == m[i])
  }

  ghost predicate Wrote(m: Bytes, c: Bytes, p: nat, b: Bytes) {
    Outside(m, c, p, p + |b|) && p + |b| <= |m| && forall i :: p <= i < p + |b| ==> c[i] == b[i - p]
  }

  ghost predicate WroteNumber(m: Bytes, c: Bytes, p: nat, v: nat) {
    p + 32 <= |m| && Outside(m, c, p, p + 32) && LoadNumber(c, p) == v
  }

  lemma NumberIsLoaded(m: Bytes, c: Bytes, p: nat, v: nat)
    requires v < UINT256_LIMIT && Wrote(m, c, p, BigEndian(v, 32))
    ensures WroteNumber(m, c, p, v)
  {
    PowerOf256To32();
    assert c[p..p + 32] == BigEndian(v, 32);
    BigEndianDecodes(v, 32);
  }

  /** Moving the free memory pointer up preserves everything below it. */
  lemma PointerMoved(m: Bytes, c: Bytes, c': Bytes, free: nat)
    requires Room(m, 0) && |c| == |m| && FreePointer(m) <= free <= |m|
    requires forall i :: 0 <= i < FreePointer(m) ==> c[i] == m[i]
    requires WroteNumber(c, c', FREE_POINTER, free)
    ensures Preserved(m, c')
  {
  }

  function RoundUp(p: nat): (r: nat)
    ensures p <= r < p + 32 && r % 32 == 0
  {
    (p + 31) / 32 * 32
  }

  // ----- the copy loop

  /** The cells from low to high hold what is `gap` cells before them in m. */
  ghost predicate Copied(m: Bytes, c: Bytes, low: nat, high: nat, gap: nat) {
    && |c| == |m| && gap <= low <= high <= |m|
    && (forall i :: low <= i < high ==> c[i] == m[i - gap])
    && Outside(m, c, low, high)
  }

  lemma CopyWord(m: Bytes, c: Bytes, c': Bytes, low: nat, mc: nat, gap: nat)
    requires Copied(m, c, low, mc, gap) && mc + 32 <= |m|
    requires mc - gap + 32 <= low
    requires Wrote(c, c', mc, c[mc - gap..mc - gap + 32])
    ensures Copied(m, c', low, mc + 32, gap)
  {
    var word := c[mc - gap..mc - gap + 32];
    forall i | low <= i < mc + 32
      ensures c'[i] == m[i - gap]
    {
      if mc <= i {
        assert c'[i] == word[i - mc] == c[i - gap];
      }
    }
  }

  /** Writing the length over the junk before the copied bytes makes them an array. */
  lemma CopyFinished(m: Bytes, c: Bytes, c1: Bytes, c2: Bytes, low: nat, buff: nat, start: nat, length: nat, free: nat)
    requires Room(m, 32 + length) && FreePointer(m) + 32 + length <= free <= |m|
    requires Allocated(m, buff) && start + length <= LoadNumber(m, buff)
    requires FreePointer(m) <= low <= FreePointer(m) + 32
    requires Copied(m, c, low, FreePointer(m) + 32 + length, FreePointer(m) - (buff + start))
    requires WroteNumber(c, c1, FreePointer(m), length) && WroteNumber(c1, c2, FREE_POINTER, free)
    ensures Preserved(m, c2) && Allocated(c2, FreePointer(m))
    ensures Content(c2, FreePointer(m)) == Content(m, buff)[start..start + length]
  {
    var temp := FreePointer(m);
    PointerMoved(m, c1, c2, free);
    ArrayAbove(c1, c2, temp, length);
    var copied, asked := c1[temp + 32..temp + 32 + length], Content(m, buff)[start..start + length];
    forall j | 0 <= j < length
      ensures copied[j] == asked[j]
    {
      assert copied[j] == c[temp + 32 + j] == m[temp + 32 + j - (temp - (buff + start))];
      assert asked[j] == m[buff + 32 + start + j];
    }
    assert copied == asked;
  }

  /** An array read off cells that agree from its address on. */
  lemma ArrayAbove(c: Bytes, c': Bytes, p: nat, length: nat)
    requires FREE_POINTER + 32 <= p && p + 32 + length <= |c| == |c'|
    requires LoadNumber(c, p) == length && p + 32 + length <= FreePointer(c') <= |c'|
    requires forall i :: p <= i < |c| ==> c'[i] == c[i]
    ensures Allocated(c', p) && Content(c', p) == c[p + 32..p + 32 + length]
  {
    assert c'[p..p + 32] == c[p..p + 32];
  }

  // ----- the digit loops

  /** From tmp on, the first `done` of the n digits are written, last digit first. */
  ghost predicate Flipped(m: Bytes, c: Bytes, tmp: nat, done: nat, digits: Bytes, n: nat) {
    && |c| == |m| && done <= n <= |digits| && tmp + done <= |m|
    && (forall i :: tmp <= i < tmp + done ==> c[i] == digits[n - 1 - (i - tmp)])
    && Outside(m, c, tmp, tmp + done)
  }

  /** The word that ends with the flipped digits truncates to their little-endian value. */
  lemma FlippedValue(c: Bytes, tmp: nat, digits: Bytes, n: nat)
    requires 0 < n <= 32 <= |digits| && 32 <= tmp && tmp + n <= |c|
    requires c[tmp..tmp + n] == Reverse(digits[..n])
    ensures LoadNumber(c, tmp - (32 - n)) % Pow256(n) == FromLittleEndian(digits[..n])
  {
    var word := c[tmp - (32 - n)..tmp + n];
    assert word[32 - n..] == c[tmp..tmp + n];
    TruncationKeepsTail(word, n);
    ReverseSwapsOrder(digits[..n]);
  }

  lemma FlippedIsRead(m: Bytes, c: Bytes, c': Bytes, buff: nat, offset: nat, digits: Bytes, n: nat)
    requires Room(m, 32) && Allocated(m, buff) && 0 < n <= 32 && offset + n <= LoadNumber(m, buff)
    requires digits == m[buff + 32 + offset..buff + 64 + offset]
    requires Flipped(m, c, FreePointer(m), n, digits, n) && WroteNumber(c, c', FREE_POINTER, FreePointer(m) + n)
    ensures Preserved(m, c')
    ensures LoadNumber(c', FreePointer(m) - (32 - n)) % Pow256(n) ==
            FromLittleEndian(Content(m, buff)[offset..offset + n])
  {
    PointerMoved(m, c, c', FreePointer(m) + n);
    FlippedIsReversed(m, c, c', FreePointer(m), digits, n);
    FlippedValue(c', FreePointer(m), digits, n);
    SliceOfSlice(m, buff + 32 + offset, 32, 0, n);
    SliceOfSlice(m, buff + 32, LoadNumber(m, buff), offset, n);
  }

  lemma FlippedIsReversed(m: Bytes, c: Bytes, c': Bytes, tmp: nat, digits: Bytes, n: nat)
    requires Flipped(m, c, tmp, n, digits, n) && FREE_POINTER + 32 <= tmp
    requires Outside(c, c', FREE_POINTER, FREE_POINTER + 32)
    ensures c'[tmp..tmp + n] == Reverse(digits[..n])
  {
    var flipped := c'[tmp..tmp + n];
    forall k | 0 <= k < n
      ensures flipped[k] == Reverse(digits[..n])[k]
    {
      assert flipped[k] == c[tmp + k] == digits[n - 1 - k];
    }
  }

  lemma FlippedIsWritten(m: Bytes, m': Bytes, c: Bytes, c': Bytes, v: nat, n: nat)
    requires Room(m, 64) && 0 < n <= 32
    requires WroteNumber(m, m', FreePointer(m), n)
    requires Flipped(m', c, FreePointer(m) + 32, n, BigEndian(v, 32), 32)
    requires WroteNumber(c, c', FREE_POINTER, FreePointer(m) + 32 + n)
    ensures Preserved(m, c') && Allocated(c', FreePointer(m))
    ensures Content(c', FreePointer(m)) == LittleEndian(v, n)
  {
    var buff := FreePointer(m);
    assert c[buff..buff + 32] == m'[buff..buff + 32];
    PointerMoved(m, c, c', buff + 32 + n);
    ArrayAbove(c, c', buff, n);
    DigitsWritten(m', c, buff + 32, v, n);
  }

  lemma DigitsWritten(m: Bytes, c: Bytes, p: nat, v: nat, n: nat)
    requires n <= 32 && Flipped(m, c, p, n, BigEndian(v, 32), 32)
    ensures c[p..p + n] == LittleEndian(v, n)
  {
    var word := BigEndian(v, 32);
    BigIsReversedLittle(v, 32);
    FewerDigits(v, n, 32);
    var written := c[p..p + n];
    forall k | 0 <= k < n
      ensures written[k] == LittleEndian(v, n)[k]
    {
      assert written[k] == c[p + k] == word[31 - k] == LittleEndian(v, 32)[..n][k];
    }
    assert written == LittleEndian(v, n);
  }

  // ----- the code

  class Memory {
    var cells: Bytes

    constructor (cells: Bytes)
      ensures this.cells == cells
    {
      this.cells := cells;
    }

    method Mload(p: nat) returns (word: Bytes)
      requires p + 32 <= |cells|
      ensures word == cells[p..p + 32]
    {
      word := cells[p..p + 32];
    }

    method Mstore(p: nat, word: Bytes)
      requires |word| == 32 && p + 32 <= |cells|
      modifies this
      ensures Wrote(old(cells), cells, p, word)
    {
      cells := cells[..p] + word + cells[p + 32..];
    }

    method MstoreNumber(p: nat, v: nat)
      requires p + 32 <= |cells| && v < UINT256_LIMIT
      modifies this
      ensures WroteNumber(old(cells), cells, p, v)
    {
      Mstore(p, BigEndian(v, 32));
      NumberIsLoaded(old(cells), cells, p, v);
    }

    method LoadFreePointer() returns (p: nat)
      requires FREE_POINTER + 32 <= |cells|
      ensures p == FreePointer(cells)
    {
      p := FromBigEndian(cells[FREE_POINTER..FREE_POINTER + 32]);
    }

    method LengthOf(p: nat) returns (n: nat)
      requires Allocated(cells, p)
      ensures n == LoadNumber(cells, p)
    {
      n := FromBigEndian(cells[p..p + 32]);
    }

    /** The assembly loop: whole words from cc to mc until `length` bytes or more are copied. */
    method CopyWords(mc0: nat, cc0: nat, length: nat) returns (mc: nat)
      requires 0 < length && cc0 <= mc0
      requires var words := (length + 31) / 32; cc0 + 32 * words <= mc0 && mc0 + 32 * words <= |cells|
      modifies this
      ensures mc == mc0 + 32 * ((length + 31) / 32)
      ensures Copied(old(cells), cells, mc0, mc, mc0 - cc0)
    {
      ghost var m := cells;
      var cc, end, k := cc0, mc0 + length, 0;
      mc := mc0;
      while mc < end
        invariant 0 <= k <= (length + 31) / 32
        invariant mc == mc0 + 32 * k && cc == cc0 + 32 * k
        invariant Copied(m, cells, mc0, mc, mc0 - cc0)
        decreases (length + 31) / 32 - k
      {
        ghost var c := cells;
        var word := Mload(cc);
        Mstore(mc, word);
        CopyWord(m, c, cells, mc0, mc, mc0 - cc0);
        mc, cc, k := mc + 32, cc + 32, k + 1;
      }
    }

    /** Copying starts `length % 32` bytes into the result so that the last word ends with the last byte;
        the junk before the first byte is then overwritten by the length. */
    method CopyOut(buff: nat, start: nat, length: nat) returns (temp: nat)
      requires length > 0 && Allocated(cells, buff) && Room(cells, 63 + length)
      requires start + length <= LoadNumber(cells, buff)
      modifies this
      ensures temp == FreePointer(old(cells)) && Allocated(cells, temp)
      ensures Content(cells, temp) == Content(old(cells), buff)[start..start + length]
      ensures FreePointer(cells) == RoundUp(temp + 32 + length)
      ensures Preserved(old(cells), cells)
    {
      ghost var m := cells;
      temp := LoadFreePointer();
      var lengthmod := length % 32;
      var shift := if lengthmod == 0 then 32 else lengthmod;
      LastWordEndsTheCopy(length);
      var mc := CopyWords(temp + shift, buff + start + shift, length);
      FinishCopy(m, temp + shift, buff, start, length, RoundUp(mc));
    }

    /** The length over the leading junk, then the free memory pointer. */
    method FinishCopy(ghost m: Bytes, ghost low: nat, ghost buff: nat, ghost start: nat, length: nat, free: nat)
      requires Room(m, 32 + length) && FreePointer(m) + 32 + length <= free <= |m|
      requires Allocated(m, buff) && start + length <= LoadNumber(m, buff)
      requires FreePointer(m) <= low <= FreePointer(m) + 32
      requires Copied(m, cells, low, FreePointer(m) + 32 + length, FreePointer(m) - (buff + start))
      modifies this
      ensures Preserved(m, cells) && Allocated(cells, FreePointer(m)) && FreePointer(cells) == free
      ensures Content(cells, FreePointer(m)) == Content(m, buff)[start..start + length]
    {
      ghost var c := cells;
      assert cells[FREE_POINTER..FREE_POINTER + 32] == m[FREE_POINTER..FREE_POINTER + 32];
      var temp := LoadFreePointer();
      MstoreNumber(temp, length);
      ghost var c1 := cells;
      MstoreNumber(FREE_POINTER, free);
      CopyFinished(m, c, c1, cells, low, buff, start, length, free);
    }

    lemma LastWordEndsTheCopy(length: nat)
      requires length > 0
      ensures var shift := if length % 32 == 0 then 32 else length % 32;
              0 < shift <= 32 && shift + 32 * ((length + 31) / 32) == 32 + length
    {
    }

    /** `slice`. For length zero it reserves a word but does not write it: the result is the empty array
        exactly when the free memory happened to hold a zero there. */
    method Slice(buff: nat, start: nat, length: nat) returns (ok: bool, temp: nat)
      requires Allocated(cells, buff) && Room(cells, 63 + length)
      modifies this
      ensures ok <==> start + length <= LoadNumber(old(cells), buff)
      ensures !ok ==> cells == old(cells)
      ensures Preserved(old(cells), cells)
      ensures ok ==> temp == FreePointer(old(cells))
      ensures ok && length > 0 ==>
                Allocated(cells, temp) && Content(cells, temp) == Content(old(cells), buff)[start..start + length]
      ensures ok && length == 0 ==>
                && FreePointer(cells) == temp + 32
                && (Allocated(cells, temp) && Content(cells, temp) == [] <==> LoadNumber(old(cells), temp) == 0)
    {
      temp := 0;
      var available := LengthOf(buff);
      ok := start + length <= available;
      if !ok {
        return;
      }
      if length > 0 {
        temp := CopyOut(buff, start, length);
      } else {
        temp := LoadFreePointer();
        ghost var m := cells;
        MstoreNumber(FREE_POINTER, temp + 32);
        PointerMoved(m, m, cells, temp + 32);
        assert cells[temp..temp + 32] == old(cells)[temp..temp + 32];
      }
    }

    /** `NextUint16`, `NextUint32`, `NextUint64` and the body of `NextUint255`: the digits are written
        backwards to free memory and read back as one number. */
    method NextUint(buff: nat, offset: nat, byteLen: nat) returns (ok: bool, v: nat, next: nat)
      requires Allocated(cells, buff) && 0 < byteLen <= 32 && Room(cells, 32)
      modifies this
      ensures ok <==> ZeroCopy.NextUint(Content(old(cells), buff), offset, byteLen).Some?
      ensures ok ==> (v, next) == ZeroCopy.NextUint(Content(old(cells), buff), offset, byteLen).value
      ensures Preserved(old(cells), cells)
      ensures FreePointer(cells) <= FreePointer(old(cells)) + byteLen
    {
      v, next := 0, 0;
      var available := LengthOf(buff);
      ok := offset + byteLen <= available;
      if !ok {
        return;
      }
      ghost var m := cells;
      var tmp := LoadFreePointer();
      var digits := Mload(buff + 32 + offset);
      FlipDigits(tmp, digits, byteLen, byteLen);
      ghost var c := cells;
      MstoreNumber(FREE_POINTER, tmp + byteLen);
      FlippedIsRead(m, c, cells, buff, offset, digits, byteLen);
      var word := Mload(tmp - (32 - byteLen));
      v := FromBigEndian(word) % Pow256(byteLen);
      next := offset + byteLen;
    }

    /** The digit loops: `count` cells from tmp on get the digits before the n-th, last one first. */
    method FlipDigits(tmp: nat, digits: Bytes, n: nat, count: nat)
      requires count <= n <= |digits| && tmp + count <= |cells|
      modifies this
      ensures Flipped(old(cells), cells, tmp, count, digits, n)
    {
      ghost var m := cells;
      var tindex := 0;
      while tindex < count
        invariant 0 <= tindex <= count
        invariant Flipped(m, cells, tmp, tindex, digits, n)
      {
        cells := cells[tmp + tindex := digits[n - 1 - tindex]];
        tindex := tindex + 1;
      }
    }

    method NextVarUint(buff: nat, offset: nat) returns (ok: bool, v: nat, next: nat)
      requires Allocated(cells, buff) && Room(cells, 32)
      modifies this
      ensures ok <==> ZeroCopy.NextVarUint(Content(old(cells), buff), offset).Some?
      ensures ok ==> (v, next) == ZeroCopy.NextVarUint(Content(old(cells), buff), offset).value
      ensures Preserved(old(cells), cells)
      ensures FreePointer(cells) <= FreePointer(old(cells)) + 8
    {
      v, next := 0, 0;
      var available := LengthOf(buff);
      ok := offset + 1 <= available;
      if !ok {
        return;
      }
      var tag := cells[buff + 32 + offset];
      assert tag == Content(cells, buff)[offset];
      if tag == 0xFD {
        ok, v, next := NextUint(buff, offset + 1, 2);
        ok := ok && 0xFD <= v <= 0xFFFF;
      } else if tag == 0xFE {
        ok, v, next := NextUint(buff, offset + 1, 4);
        ok := ok && 0xFFFF < v <= 0xFFFF_FFFF;
      } else if tag == 0xFF {
        ok, v, next := NextUint(buff, offset + 1, 8);
        if ok {
          PowersOf256();
          NextUintBound(Content(old(cells), buff), offset + 1, 8);
        }
        ok := ok && 0xFFFF_FFFF < v;
      } else {
        v, next := tag, offset + 1;
      }
    }

    /** The most free memory that reading a field out of an array can take. */
    ghost function FieldRoom(m: Bytes, buff: nat): nat
      requires Allocated(m, buff)
    {
      LoadNumber(m, buff) + 71
    }

    method NextVarBytes(buff: nat, offset: nat) returns (ok: bool, temp: nat, next: nat)
      requires Allocated(cells, buff) && Room(cells, FieldRoom(cells, buff))
      modifies this
      ensures ok <==> ZeroCopy.NextVarBytes(Content(old(cells), buff), offset).Some?
      ensures ok ==> Allocated(cells, temp)
      ensures ok ==> (Content(cells, temp), next) == ZeroCopy.NextVarBytes(Content(old(cells), buff), offset).value
      ensures Preserved(old(cells), cells)
      ensures FreePointer(cells) <= FreePointer(old(cells)) + FieldRoom(old(cells), buff)
    {
      ghost var m := cells;
      temp := 0;
      var len;
      ok, len, next := NextVarUint(buff, offset);
      ghost var m' := cells;
      AllocatedSurvives(m, m', buff);
      var available := LengthOf(buff);
      ok := ok && next + len <= available && next < next + len;
      if !ok {
        return;
      }
      temp := CopyOut(buff, next, len);
      PreservedTransitive(m, m', cells);
      next := next + len;
    }

    method NextUint255(buff: nat, offset: nat) returns (ok: bool, v: nat, next: nat)
      requires Allocated(cells, buff) && Room(cells, 32)
      modifies this
      ensures ok <==> ZeroCopy.NextUint255(Content(old(cells), buff), offset).Some?
      ensures ok ==> (v, next) == ZeroCopy.NextUint255(Content(old(cells), buff), offset).value
      ensures Preserved(old(cells), cells)
    {
      ok, v, next := NextUint(buff, offset, 32);
      ok := ok && v <= UINT255_LIMIT - 1;
    }

    /** `WriteUint16`, `WriteUint32`, `WriteUint64` and `WriteUint255`: digit by digit, lowest first. */
    method WriteUint(v: nat, byteLen: nat) returns (buff: nat)
      requires v < UINT256_LIMIT && 0 < byteLen <= 32 && Room(cells, 64)
      modifies this
      ensures buff == FreePointer(old(cells)) && Allocated(cells, buff)
      ensures Content(cells, buff) == LittleEndian(v, byteLen)
      ensures Preserved(old(cells), cells)
    {
      ghost var m := cells;
      buff := LoadFreePointer();
      MstoreNumber(buff, byteLen);
      ghost var m' := cells;
      FlipDigits(buff + 32, BigEndian(v, 32), 32, byteLen);
      ghost var c := cells;
      MstoreNumber(FREE_POINTER, buff + 32 + byteLen);
      FlippedIsWritten(m, m', c, cells, v, byteLen);
    }

    /** Two fields in a row, each into an array of its own. */
    method NextTwoVarBytes(buff: nat, offset: nat) returns (ok: bool, first: nat, second: nat, next: nat)
      requires Allocated(cells, buff) && Room(cells, 2 * FieldRoom(cells, buff))
      modifies this
      ensures ok <==> TwoFields(Content(old(cells), buff), offset).Some?
      ensures ok ==> Allocated(cells, first) && Allocated(cells, second)
      ensures ok ==> (Content(cells, first), Content(cells, second), next) ==
                     TwoFields(Content(old(cells), buff), offset).value
      ensures Preserved(old(cells), cells)
      ensures FreePointer(cells) <= FreePointer(old(cells)) + 2 * FieldRoom(old(cells), buff)
    {
      ghost var m := cells;
      second := 0;
      ok, first, next := NextVarBytes(buff, offset);
      if !ok {
        return;
      }
      ghost var m1 := cells;
      AllocatedSurvives(m, m1, buff);
      ok, second, next := NextVarBytes(buff, next);
      AllocatedSurvives(m1, cells, first);
      PreservedTransitive(m, m1, cells);
    }

    /** The unlocking side reads its arguments: each field ends up as its own array in memory. */
    method DeserializeTransferTxArgs(buff: nat)
      returns (ok: bool, fromAssetHash: nat, toAssetHash: nat, toAddress: nat, amount: nat)
      requires Allocated(cells, buff) && Room(cells, 3 * FieldRoom(cells, buff) + 32)
      modifies this
      ensures ok <==> Deserialize(Content(old(cells), buff)).Some?
      ensures ok ==> Allocated(cells, fromAssetHash) && Allocated(cells, toAssetHash) && Allocated(cells, toAddress)
      ensures ok ==>
                Unlock(Content(cells, fromAssetHash), Content(cells, toAssetHash), Content(cells, toAddress), amount) ==
                Deserialize(Content(old(cells), buff)).value
    {
      ghost var m := cells;
      toAddress, amount := 0, 0;
      var off;
      ok, fromAssetHash, toAssetHash, off := NextTwoVarBytes(buff, 0);
      if !ok {
        return;
      }
      ghost var m1 := cells;
      AllocatedSurvives(m, m1, buff);
      ok, toAddress, off := NextVarBytes(buff, off);
      if !ok {
        return;
      }
      ghost var m2 := cells;
      AllocatedSurvives(m1, m2, buff);
      ok, amount, off := NextUint255(buff, off);
      PreservedTransitive(m1, m2, cells);
      AllocatedSurvives(m1, cells, fromAssetHash);
      AllocatedSurvives(m1, cells, toAssetHash);
      AllocatedSurvives(m2, cells, toAddress);
    }
  }
}
