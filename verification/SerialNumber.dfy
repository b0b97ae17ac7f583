/** The device serial number of mt_devs.c: a 64-bit hardware key is cut into four 16-bit
    words, each word is rotated by a decimal digit of the chip id, and each rotated word is
    shown as four overlapping five-bit slices through a letter table.

    Words are numbers below 2^16.  A right shift by n is a division by 2^n, a mask that
    selects the low n bits is a remainder by 2^n, and the two halves of a rotation have no
    bit in common, so joining them is an addition. */
module SerialNumber {

  const LETTERS: string := "ABCDEFGHIJKLMNOPQRSTUVWSYZ456789"
  const WORDS := 4
  const SERIALNO_LEN := 32

  type Word = w: int | 0 <= w < 0x1_0000
  type Key = k: int | 0 <= k < 0x1_0000_0000_0000_0000

  // ---------- specification ----------

  function WordAt(key: Key, i: nat): Word
    requires i < WORDS
  {
    if i == 0 then key % 0x1_0000
    else if i == 1 then key / 0x1_0000 % 0x1_0000
    else if i == 2 then key / 0x1_0000_0000 % 0x1_0000
    else key / 0x1_0000_0000_0000
  }

  function DigitAt(chipId: nat, i: nat): (d: nat)
    ensures d < 10
  {
    if i == 0 then chipId % 10 else DigitAt(chipId / 10, i - 1)
  }

  function Pow2(n: nat): (p: nat)
    ensures p > 0
  {
    if n == 0 then 1 else 2 * Pow2(n - 1)
  }

  lemma {:induction false} Pow2Adds(a: nat, b: nat)
    ensures Pow2(a) * Pow2(b) == Pow2(a + b)
  {
    if a > 0 { Pow2Adds(a - 1, b); }
  }

  lemma Pow2Complement(d: nat)
    requires d <= 16
    ensures Pow2(d) * Pow2(16 - d) == 0x1_0000
  {
    Pow2Adds(d, 16 - d);
    Pow2Adds(8, 8);
    assert Pow2(4) == 16;
    Pow2Adds(4, 4);
  }

  /** (w >> d) | (w << (16 - d)), cut to sixteen bits. */
  function RotateRight(w: Word, d: nat): (r: Word)
    requires d < 10
  {
    RotationSplits(w, d);
    w / Pow2(d) + w * Pow2(16 - d) % 0x1_0000
  }

  lemma MultipleIsFar(m: int, d: int)
    requires m > 0
    ensures d >= 1 ==> m * d >= m
    ensures d <= -1 ==> m * d <= -m
  {}

  lemma RemainderIs(n: int, m: int, k: int, r: int)
    requires m > 0 && 0 <= r < m && n == m * k + r
    ensures n % m == r && n / m == k
  {
    var d := n / m - k;
    assert m * d == r - n % m;
    MultipleIsFar(m, d);
  }

  lemma Distributes(w: int, p: int, q: int, h: int, l: int)
    requires w == p * h + l
    ensures w * q == p * q * h + l * q
  {
    assert w * q == p * h * q + l * q;
  }

  lemma NotNegative(a: int, b: int)
    requires a >= 0 && b >= 0
    ensures a * b >= 0
  {}

  lemma Bounded(l: int, p: int, q: int)
    requires 0 <= l < p && q > 0
    ensures 0 <= l * q <= p * q - q
  {
    NotNegative(l, q);
    NotNegative(p - 1 - l, q);
    assert (p - 1 - l) * q == p * q - q - l * q;
  }

  lemma ShiftedOut(w: int, p: int, q: int)
    requires 0 <= w && p > 0 && q > 0
    ensures w * q % (p * q) == w % p * q
    ensures w < p * q ==> w / p < q
    ensures 0 <= w % p * q <= p * q - q
  {
    var h, l := w / p, w % p;
    Distributes(w, p, q, h, l);
    Bounded(l, p, q);
    RemainderIs(w * q, p * q, h, l * q);
    MultipleIsFar(p, h - q + 1);
  }

  lemma PartsFit(w: Word, p: int, q: int)
    requires p > 0 && q > 0 && p * q == 0x1_0000
    ensures w * q % 0x1_0000 == w % p * q && 0 <= w / p < q && 0 <= w / p + w % p * q < 0x1_0000
  {
    ShiftedOut(w, p, q);
  }

  /** A rotation keeps the high part w / 2^d low and moves the low part w % 2^d on top of it. */
  lemma RotationSplits(w: Word, d: nat)
    requires d < 10
    ensures w * Pow2(16 - d) % 0x1_0000 == w % Pow2(d) * Pow2(16 - d)
    ensures 0 <= w / Pow2(d) < Pow2(16 - d)
    ensures 0 <= w / Pow2(d) + w % Pow2(d) * Pow2(16 - d) < 0x1_0000
  {
    Pow2Complement(d);
    PartsFit(w, Pow2(d), Pow2(16 - d));
  }

  function Rotated(key: Key, chipId: nat, i: nat): Word
    requires i < WORDS
  {
    RotateRight(WordAt(key, i), DigitAt(chipId, i))
  }

  /** Slice j of a rotated word: bits 0-4, 3-7, 8-12 and 11-15. */
  function Slice(w: Word, j: nat): (s: int)
    requires j < 4
    ensures 0 <= s < 32
  {
    if j == 0 then w % 32
    else if j == 1 then w % 256 / 8
    else if j == 2 then w / 256 % 32
    else w / 2048
  }

  function Indexes(key: Key, chipId: nat): (s: seq<int>)
    ensures |s| == 16
    ensures forall k :: 0 <= k < 16 ==> s[k] == Slice(Rotated(key, chipId, k / 4), k % 4)
    ensures forall k :: 0 <= k < 16 ==> 0 <= s[k] < 32
  {
    seq(16, k requires 0 <= k < 16 => Slice(Rotated(key, chipId, k / 4), k % 4))
  }

  function Serial(key: Key, chipId: nat): (s: string)
    ensures |s| == 16
  {
    var x := Indexes(key, chipId);
    seq(16, k requires 0 <= k < 16 => LETTERS[x[k]])
  }

  // ---------- the specification against independent facts ----------

  /** Four decimal digits of the chip id, the lowest first. */
  lemma DigitsAreDecimal(chipId: nat)
    ensures DigitAt(chipId, 0) + 10 * DigitAt(chipId, 1) + 100 * DigitAt(chipId, 2) + 1000 * DigitAt(chipId, 3) ==
            chipId % 10000
  {
    FourDigits(chipId);
    DigitsBehind(chipId);
  }

  lemma FourDigits(n: nat)
    ensures n % 10 + 10 * (n / 10 % 10) + 100 * (n / 10 / 10 % 10) + 1000 * (n / 10 / 10 / 10 % 10) == n % 10000
  {
    var a := n / 10;
    var b := a / 10;
    var c := b / 10;
    RemainderIs(n, 10000, c / 10, n % 10 + 10 * (a % 10) + 100 * (b % 10) + 1000 * (c % 10));
  }

  lemma DigitsBehind(n: nat)
    ensures DigitAt(n, 0) == n % 10 && DigitAt(n, 1) == n / 10 % 10
    ensures DigitAt(n, 2) == n / 10 / 10 % 10 && DigitAt(n, 3) == n / 10 / 10 / 10 % 10
  {
    assert DigitAt(n / 10, 1) == DigitAt(n / 10 / 10, 0);
    assert DigitAt(n / 10, 2) == DigitAt(n / 10 / 10, 1) == DigitAt(n / 10 / 10 / 10, 0);
  }

  /** Moved up again by d bits, a rotated word is the word with its low d bits once more in front. */
  lemma RotationTurns(w: Word, d: nat)
    requires d < 10
    ensures RotateRight(w, d) * Pow2(d) == w + 0xFFFF * (w % Pow2(d))
  {
    Pow2Complement(d);
    RotationSplits(w, d);
    TurnsBack(w, Pow2(d), Pow2(16 - d), RotateRight(w, d));
  }

  lemma TurnsBack(w: int, p: int, q: int, r: int)
    requires p > 0 && p * q == 0x1_0000 && r == w / p + w % p * q
    ensures r * p == w + 0xFFFF * (w % p)
  {
    Associates(w % p, p, q);
    Distributes(r, 1, p, w / p, w % p * q);
    QuotientAndRest(w, p);
  }

  lemma Associates(l: int, p: int, q: int)
    requires p * q == 0x1_0000
    ensures l * q * p == 0x1_0000 * l
  {
    assert l * q * p == l * (p * q);
  }

  lemma QuotientAndRest(w: int, p: int)
    requires p > 0
    ensures 1 * p * (w / p) + w % p == w
  {}

  lemma PowersOfTwo()
    ensures Pow2(0) == 1 && Pow2(1) == 2 && Pow2(2) == 4 && Pow2(3) == 8 && Pow2(4) == 16 && Pow2(5) == 32
    ensures Pow2(6) == 64 && Pow2(7) == 128 && Pow2(8) == 256 && Pow2(9) == 512
  {
    assert Pow2(3) == 8;
    assert Pow2(6) == 64;
  }

  /** The table: A to W, then S in the place of X, Y and Z, and the figures 4 to 9. */
  lemma TableIs(i: nat)
    requires i < 32
    ensures i < 23 ==> LETTERS[i] == 'A' + i as char
    ensures LETTERS[23] == 'S' && LETTERS[24] == 'Y' && LETTERS[25] == 'Z'
    ensures i >= 26 ==> LETTERS[i] == '4' + (i - 26) as char
  {}

  // ---------- the generator ----------

  /** Lines 303-308: the key is shifted down sixteen bits at a time. */
  method SplitKey(hwkey: Key, hashkey: array<Word>)
    requires hashkey.Length == WORDS
    modifies hashkey
    ensures forall k :: 0 <= k < WORDS ==> hashkey[k] == WordAt(hwkey, k)
  {
    var tmp: int := hwkey;
    var idx := 0;
    while idx < WORDS
      invariant 0 <= idx <= WORDS
      invariant tmp == ShiftedKey(hwkey, idx)
      invariant forall k :: 0 <= k < idx ==> hashkey[k] == WordAt(hwkey, k)
    {
      hashkey[idx] := tmp % 0x1_0000;
      tmp := tmp / 0x1_0000;
      idx := idx + 1;
    }
  }

  function ShiftedKey(key: Key, i: nat): int
    requires i <= WORDS
  {
    if i == 0 then key
    else if i == 1 then key / 0x1_0000
    else if i == 2 then key / 0x1_0000_0000
    else if i == 3 then key / 0x1_0000_0000_0000
    else 0
  }

  /** The digits left after the first. */
  lemma DigitsMoveOn(id: nat, chipId: nat, n: nat)
    requires forall k: nat :: DigitAt(id, k) == DigitAt(chipId, k + n)
    ensures forall k: nat :: DigitAt(id / 10, k) == DigitAt(chipId, k + (n + 1))
  {
    forall k: nat
      ensures DigitAt(id / 10, k) == DigitAt(chipId, k + (n + 1))
    {
      assert DigitAt(id, k + 1) == DigitAt(chipId, (k + 1) + n);
    }
  }

  /** Line 314. */
  method RotateOne(w: Word, digit: nat) returns (r: Word)
    requires digit < 10
    ensures r == RotateRight(w, digit)
  {
    RotationSplits(w, digit);
    r := w / Pow2(digit) + w * Pow2(16 - digit) % 0x1_0000;
  }

  /** Lines 311-316: each word is rotated right by the next decimal digit of the chip id. */
  method RotateWords(chipId: nat, hashkey: array<Word>)
    requires hashkey.Length == WORDS
    modifies hashkey
    ensures forall k :: 0 <= k < WORDS ==> hashkey[k] == RotateRight(old(hashkey[k]), DigitAt(chipId, k))
  {
    var id := chipId;
    var idx := 0;
    while idx < WORDS
      invariant 0 <= idx <= WORDS
      invariant forall k: nat :: DigitAt(id, k) == DigitAt(chipId, k + idx)
      invariant forall k :: 0 <= k < idx ==> hashkey[k] == RotateRight(old(hashkey[k]), DigitAt(chipId, k))
      invariant forall k :: idx <= k < WORDS ==> hashkey[k] == old(hashkey[k])
    {
      var digit := id % 10;
      assert digit == DigitAt(id, 0) == DigitAt(chipId, 0 + idx);
      hashkey[idx] := RotateOne(hashkey[idx], digit);
      DigitsMoveOn(id, chipId, idx);
      id := id / 10;
      idx := idx + 1;
    }
  }

  /** Lines 319-325: four slices a word, stored as small characters. */
  method CutSlices(hashkey: array<Word>, ser: array<char>)
    requires hashkey.Length == WORDS && ser.Length == SERIALNO_LEN
    modifies ser
    ensures forall k :: 0 <= k < 16 ==> ser[k] == Slice(hashkey[k / 4], k % 4) as char
    ensures forall k :: 16 <= k < ser.Length ==> ser[k] == old(ser[k])
  {
    var idx := 0;
    while idx < WORDS
      invariant 0 <= idx <= WORDS
      invariant forall k :: 0 <= k < 4 * idx ==> ser[k] == Slice(hashkey[k / 4], k % 4) as char
      invariant forall k :: 16 <= k < ser.Length ==> ser[k] == old(ser[k])
    {
      var w := hashkey[idx];
      ser[4 * idx] := (w % 32) as char;
      ser[4 * idx + 1] := (w % 256 / 8) as char;
      ser[4 * idx + 2] := (w / 256 % 32) as char;
      ser[4 * idx + 3] := (w / 2048) as char;
      idx := idx + 1;
    }
  }

  /** Lines 326-328: every slice is replaced by its letter and the string is closed. */
  method ShowLetters(ghost x: seq<int>, ser: array<char>)
    requires |x| == 16 && ser.Length == SERIALNO_LEN
    requires forall k :: 0 <= k < 16 ==> 0 <= x[k] < 32 && ser[k] == x[k] as char
    modifies ser
    ensures forall k :: 0 <= k < 16 ==> ser[k] == LETTERS[x[k]]
    ensures ser[16] == '\0'
    ensures forall k :: 16 < k < ser.Length ==> ser[k] == old(ser[k])
  {
    var idx := 0;
    while idx < 16
      invariant 0 <= idx <= 16
      invariant forall k :: idx <= k < 16 ==> ser[k] == x[k] as char
      invariant forall k :: 0 <= k < idx ==> ser[k] == LETTERS[x[k]]
      invariant forall k :: 16 <= k < ser.Length ==> ser[k] == old(ser[k])
    {
      ser[idx] := LETTERS[ser[idx] as int];
      idx := idx + 1;
    }
    ser[idx] := '\0';
  }

  /** get_serial, lines 294-330. */
  method GetSerial(hwkey: Key, chipId: nat, ser: array<char>) returns (status: int)
    requires ser.Length == SERIALNO_LEN
    modifies ser
    ensures status == 0
    ensures ser[..16] == Serial(hwkey, chipId)
    ensures forall k :: 16 <= k < ser.Length ==> ser[k] == '\0'
  {
    forall k | 0 <= k < ser.Length { ser[k] := '\0'; }
    var hashkey := new Word[WORDS];
    SplitKey(hwkey, hashkey);
    RotateWords(chipId, hashkey);
    CutSlices(hashkey, ser);
    ghost var x := Indexes(hwkey, chipId);
    forall k | 0 <= k < 16
      ensures ser[k] == x[k] as char
    {
      assert hashkey[k / 4] == Rotated(hwkey, chipId, k / 4);
    }
    ShowLetters(x, ser);
    return 0;
  }

  // ---------- what the serial number keeps and what it loses ----------

  /** (w << d) | (w >> (16 - d)), cut to sixteen bits. */
  function RotateLeft(w: Word, d: nat): int
    requires d < 10
  {
    w * Pow2(d) % 0x1_0000 + w / Pow2(16 - d)
  }

  lemma PartsComeApart(w: int, p: int, q: int, r: int)
    requires 0 <= w < p * q && p > 0 && q > 0 && r == w / p + w % p * q
    ensures r / q == w % p && r % q == w / p && r >= 0
  {
    ShiftedOut(w, p, q);
    RemainderIs(r, q, w % p, w / p);
  }

  lemma PartsInvert(w: int, p: int, q: int, r: int)
    requires 0 <= w < p * q && p > 0 && q > 0 && r == w / p + w % p * q
    ensures r * p % (q * p) + r / q == w
  {
    PartsComeApart(w, p, q, r);
    ShiftedOut(r, q, p);
    assert w == w / p * p + w % p;
  }

  lemma RotationInverts(w: Word, d: nat)
    requires d < 10
    ensures RotateLeft(RotateRight(w, d), d) == w
  {
    Pow2Complement(d);
    RotationSplits(w, d);
    PartsInvert(w, Pow2(d), Pow2(16 - d), RotateRight(w, d));
  }

  /** A rotated word put together again from its four slices; the middle ones overlap it. */
  function Joined(s: seq<int>, i: nat): Word
    requires |s| == 16 && (forall k :: 0 <= k < 16 ==> 0 <= s[k] < 32) && i < WORDS
  {
    s[4 * i] % 8 + 8 * s[4 * i + 1] + 256 * (s[4 * i + 2] % 8) + 2048 * s[4 * i + 3]
  }

  function Rebuilt(s: seq<int>, chipId: nat): int
    requires |s| == 16 && (forall k :: 0 <= k < 16 ==> 0 <= s[k] < 32)
  {
    RotateLeft(Joined(s, 0), DigitAt(chipId, 0)) +
    0x1_0000 * RotateLeft(Joined(s, 1), DigitAt(chipId, 1)) +
    0x1_0000_0000 * RotateLeft(Joined(s, 2), DigitAt(chipId, 2)) +
    0x1_0000_0000_0000 * RotateLeft(Joined(s, 3), DigitAt(chipId, 3))
  }

  lemma JoinsBack(key: Key, chipId: nat, i: nat)
    requires i < WORDS
    ensures Joined(Indexes(key, chipId), i) == Rotated(key, chipId, i)
  {
    var s := Indexes(key, chipId);
    var w := Rotated(key, chipId, i);
    assert (4 * i) / 4 == i && (4 * i) % 4 == 0;
    assert (4 * i + 1) / 4 == i && (4 * i + 1) % 4 == 1;
    assert (4 * i + 2) / 4 == i && (4 * i + 2) % 4 == 2;
    assert (4 * i + 3) / 4 == i && (4 * i + 3) % 4 == 3;
    SlicesCover(w);
  }

  lemma SlicesCover(w: Word)
    ensures w == Slice(w, 0) % 8 + 8 * Slice(w, 1) + 256 * (Slice(w, 2) % 8) + 2048 * Slice(w, 3)
  {
    BytesOfSlices(w);
    ByteCover(w % 256);
    ByteCover(w / 256);
  }

  lemma ByteCover(b: int)
    ensures b == b % 32 % 8 + 8 * (b / 8)
  {
    RemainderIs(b % 32, 8, b / 8 - 4 * (b / 32), b % 8);
  }

  lemma WordsCover(key: Key)
    ensures key == WordAt(key, 0) + 0x1_0000 * WordAt(key, 1) + 0x1_0000_0000 * WordAt(key, 2)
                 + 0x1_0000_0000_0000 * WordAt(key, 3)
  {}

  lemma WordComesBack(key: Key, chipId: nat, i: nat)
    requires i < WORDS
    ensures RotateLeft(Joined(Indexes(key, chipId), i), DigitAt(chipId, i)) == WordAt(key, i)
  {
    JoinsBack(key, chipId, i);
    RotationInverts(WordAt(key, i), DigitAt(chipId, i));
  }

  /** The sixteen indexes determine the key: nothing is lost before the letter table. */
  lemma KeyFromIndexes(key: Key, chipId: nat)
    ensures Rebuilt(Indexes(key, chipId), chipId) == key
  {
    WordComesBack(key, chipId, 0);
    WordComesBack(key, chipId, 1);
    WordComesBack(key, chipId, 2);
    WordComesBack(key, chipId, 3);
    WordsCover(key);
  }

  /** Two slices that show the same letter: the table holds 'S' at 18 and at 23. */
  predicate ShowAlike(a: int, b: int) {
    a == b || (a == 18 && b == 23) || (a == 23 && b == 18)
  }

  function Rank(c: char): int {
    if 'A' <= c <= 'Z' then c as int - 'A' as int else c as int - '4' as int + 26
  }

  lemma LettersCollide(a: int, b: int)
    requires 0 <= a < 32 && 0 <= b < 32
    ensures LETTERS[a] == LETTERS[b] <==> ShowAlike(a, b)
  {
    assert forall i :: 0 <= i < 32 ==> Rank(LETTERS[i]) == if i == 23 then 18 else i;
  }

  /** Two bytes that print alike: equal, or equal but for low five bits 18 against 23. */
  predicate BytesPrintAlike(a: int, b: int) {
    a / 32 == b / 32 && ShowAlike(a % 32, b % 32)
  }

  predicate WordsPrintAlike(v: Word, w: Word) {
    BytesPrintAlike(v % 256, w % 256) && BytesPrintAlike(v / 256, w / 256)
  }

  lemma BytesOfSlices(w: Word)
    ensures Slice(w, 0) == w % 256 % 32 && Slice(w, 1) == w % 256 / 8
    ensures Slice(w, 2) == w / 256 % 32 && Slice(w, 3) == w / 256 / 8
  {}

  lemma SlicesPrintAlike(v: Word, w: Word)
    ensures (ShowAlike(Slice(v, 0), Slice(w, 0)) && ShowAlike(Slice(v, 1), Slice(w, 1)) &&
             ShowAlike(Slice(v, 2), Slice(w, 2)) && ShowAlike(Slice(v, 3), Slice(w, 3))) <==> WordsPrintAlike(v, w)
  {
    OverlapForbidsUpperSwap(v % 256, w % 256);
    OverlapForbidsUpperSwap(v / 256, w / 256);
    BytesOfSlices(v);
    BytesOfSlices(w);
  }

  /** The overlap of bits 3 and 4 lets only the lower slice of a byte trade 18 for 23. */
  lemma OverlapForbidsUpperSwap(a: int, b: int)
    requires 0 <= a < 256 && 0 <= b < 256
    ensures ShowAlike(a % 32, b % 32) && ShowAlike(a / 8, b / 8) <==> BytesPrintAlike(a, b)
  {}

  /** The four characters of word i. */
  predicate SameFour(s1: string, s2: string, i: nat)
    requires |s1| == 16 && |s2| == 16 && i < WORDS
  {
    s1[4 * i] == s2[4 * i] && s1[4 * i + 1] == s2[4 * i + 1] &&
    s1[4 * i + 2] == s2[4 * i + 2] && s1[4 * i + 3] == s2[4 * i + 3]
  }

  lemma CharAt(key: Key, chipId: nat, i: nat, j: nat)
    requires i < WORDS && j < 4
    ensures Serial(key, chipId)[4 * i + j] == LETTERS[Slice(Rotated(key, chipId, i), j)]
  {
    assert (4 * i + j) / 4 == i && (4 * i + j) % 4 == j;
  }

  lemma FourCollide(k1: Key, k2: Key, chipId: nat, i: nat)
    requires i < WORDS
    ensures SameFour(Serial(k1, chipId), Serial(k2, chipId), i) <==>
            WordsPrintAlike(Rotated(k1, chipId, i), Rotated(k2, chipId, i))
  {
    var v, w := Rotated(k1, chipId, i), Rotated(k2, chipId, i);
    forall j | 0 <= j < 4
      ensures Serial(k1, chipId)[4 * i + j] == Serial(k2, chipId)[4 * i + j] <==> ShowAlike(Slice(v, j), Slice(w, j))
    {
      CharAt(k1, chipId, i, j);
      CharAt(k2, chipId, i, j);
      LettersCollide(Slice(v, j), Slice(w, j));
    }
    SlicesPrintAlike(v, w);
  }

  lemma SameByFours(s1: string, s2: string)
    requires |s1| == 16 && |s2| == 16
    ensures s1 == s2 <==> SameFour(s1, s2, 0) && SameFour(s1, s2, 1) && SameFour(s1, s2, 2) && SameFour(s1, s2, 3)
  {}

  /** Exactly which keys share a serial number on one chip. */
  lemma SerialsCollide(k1: Key, k2: Key, chipId: nat)
    ensures Serial(k1, chipId) == Serial(k2, chipId) <==>
            forall i :: 0 <= i < WORDS ==> WordsPrintAlike(Rotated(k1, chipId, i), Rotated(k2, chipId, i))
  {
    SameByFours(Serial(k1, chipId), Serial(k2, chipId));
    forall i | 0 <= i < WORDS
      ensures SameFour(Serial(k1, chipId), Serial(k2, chipId), i) <==>
              WordsPrintAlike(Rotated(k1, chipId, i), Rotated(k2, chipId, i))
    {
      FourCollide(k1, k2, chipId, i);
    }
  }

  lemma WordsOfSmall(k: Word, i: nat)
    requires i < WORDS
    ensures WordAt(k, i) == if i == 0 then k else 0
  {}

  lemma SmallKey(k: Word, i: nat)
    requires i < WORDS
    ensures Rotated(k, 0, i) == if i == 0 then k else 0
  {
    WordsOfSmall(k, i);
    DigitsOfZero(i);
    RotationByZero(WordAt(k, i));
  }

  lemma RotationByZero(w: Word)
    ensures RotateRight(w, 0) == w
  {
    RotationSplits(w, 0);
    assert Pow2(0) == 1;
    assert w % 1 == 0 && w / 1 == w;
    assert 0 * Pow2(16) == 0;
  }

  lemma DigitsOfZero(i: nat)
    ensures DigitAt(0, i) == 0
  {}

  lemma SmallWordsAlike(v: Word, w: Word)
    requires v < 32 && w < 32 && ShowAlike(v, w)
    ensures WordsPrintAlike(v, w)
  {}

  lemma SmallPrintAlike(a: Word, b: Word, i: nat)
    requires a < 32 && b < 32 && ShowAlike(a, b) && i < WORDS
    ensures WordsPrintAlike(Rotated(a, 0, i), Rotated(b, 0, i))
  {
    SmallKey(a, i);
    SmallKey(b, i);
    SmallWordsAlike(if i == 0 then a else 0, if i == 0 then b else 0);
  }

  /** A concrete loss: on chip id 0, keys 18 and 23 print the same serial number. */
  lemma SerialIsNotInjective()
    ensures Serial(18, 0) == Serial(23, 0)
  {
    var a: Key, b: Key, chipId: nat := 18, 23, 0;
    SerialsCollide(a, b, chipId);
    forall i | 0 <= i < WORDS
      ensures WordsPrintAlike(Rotated(a, chipId, i), Rotated(b, chipId, i))
    {
      SmallPrintAlike(a, b, i);
    }
  }

  // ---------- one serial number in full ----------

  lemma TurnedIs(w: Word, d: nat, p: int, r: int)
    requires d < 10 && Pow2(d) == p && r * p == w + 0xFFFF * (w % p)
    ensures RotateRight(w, d) == r
  {
    RotationTurns(w, d);
    SameFactor(RotateRight(w, d), r, p);
  }

  lemma SameFactor(a: int, b: int, p: int)
    requires p > 0 && a * p == b * p
    ensures a == b
  {
    assert p * (a - b) == 0;
    MultipleIsFar(p, a - b);
  }

  predicate Sliced(w: Word, a: nat, b: nat, c: nat, d: nat) {
    Slice(w, 0) == a && Slice(w, 1) == b && Slice(w, 2) == c && Slice(w, 3) == d
  }

  predicate Shows(s: string, i: nat, a: nat, b: nat, c: nat, d: nat)
    requires |s| == 16 && i < WORDS && a < 32 && b < 32 && c < 32 && d < 32
  {
    s[4 * i] == LETTERS[a] && s[4 * i + 1] == LETTERS[b] && s[4 * i + 2] == LETTERS[c] && s[4 * i + 3] == LETTERS[d]
  }

  lemma ShowsSlices(key: Key, chipId: nat, i: nat, a: nat, b: nat, c: nat, d: nat)
    requires i < WORDS && Sliced(Rotated(key, chipId, i), a, b, c, d) && a < 32 && b < 32 && c < 32 && d < 32
    ensures Shows(Serial(key, chipId), i, a, b, c, d)
  {
    CharAt(key, chipId, i, 0);
    CharAt(key, chipId, i, 1);
    CharAt(key, chipId, i, 2);
    CharAt(key, chipId, i, 3);
  }

  lemma WordsOfOneKey(key: Key)
    requires key == 0x0123_4567_89AB_CDEF
    ensures WordAt(key, 0) == 0xCDEF && WordAt(key, 1) == 0x89AB
    ensures WordAt(key, 2) == 0x4567 && WordAt(key, 3) == 0x0123
  {}

  lemma DigitsOfOneChip(chipId: nat)
    requires chipId == 0x6572
    ensures DigitAt(chipId, 0) == 0 && DigitAt(chipId, 1) == 7 && DigitAt(chipId, 2) == 9 && DigitAt(chipId, 3) == 5
  {
    DigitsBehind(chipId);
  }

  lemma WordsTurned(key: Key, chipId: nat)
    requires key == 0x0123_4567_89AB_CDEF && chipId == 0x6572
    ensures Rotated(key, chipId, 0) == 0xCDEF && Rotated(key, chipId, 1) == 0x5713
    ensures Rotated(key, chipId, 2) == 0xB3A2 && Rotated(key, chipId, 3) == 0x1809
  {
    PowersOfTwo();
    WordsOfOneKey(key);
    DigitsOfOneChip(chipId);
    TurnedIs(0xCDEF, 0, 1, 0xCDEF);
    TurnedIs(0x89AB, 7, 128, 0x5713);
    TurnedIs(0x4567, 9, 512, 0xB3A2);
    TurnedIs(0x0123, 5, 32, 0x1809);
  }

  lemma WordsSliced()
    ensures Sliced(0xCDEF, 15, 29, 13, 25) && Sliced(0x5713, 19, 2, 23, 10)
    ensures Sliced(0xB3A2, 2, 20, 19, 22) && Sliced(0x1809, 9, 1, 24, 3)
  {}

  lemma LettersOfOneKey(key: Key, chipId: nat)
    requires key == 0x0123_4567_89AB_CDEF && chipId == 0x6572
    ensures Shows(Serial(key, chipId), 0, 15, 29, 13, 25) && Shows(Serial(key, chipId), 1, 19, 2, 23, 10)
    ensures Shows(Serial(key, chipId), 2, 2, 20, 19, 22) && Shows(Serial(key, chipId), 3, 9, 1, 24, 3)
  {
    WordsTurned(key, chipId);
    WordsSliced();
    ShowsSlices(key, chipId, 0, 15, 29, 13, 25);
    ShowsSlices(key, chipId, 1, 19, 2, 23, 10);
    ShowsSlices(key, chipId, 2, 2, 20, 19, 22);
    ShowsSlices(key, chipId, 3, 9, 1, 24, 3);
  }

  lemma LettersOfSlices()
    ensures LETTERS[15] == 'P' && LETTERS[29] == '7' && LETTERS[13] == 'N' && LETTERS[25] == 'Z'
    ensures LETTERS[19] == 'T' && LETTERS[2] == 'C' && LETTERS[23] == 'S' && LETTERS[10] == 'K'
    ensures LETTERS[20] == 'U' && LETTERS[22] == 'W'
    ensures LETTERS[9] == 'J' && LETTERS[1] == 'B' && LETTERS[24] == 'Y' && LETTERS[3] == 'D'
  {}

  lemma ShowsInFull(s: string)
    requires |s| == 16
    requires Shows(s, 0, 15, 29, 13, 25) && Shows(s, 1, 19, 2, 23, 10)
    requires Shows(s, 2, 2, 20, 19, 22) && Shows(s, 3, 9, 1, 24, 3)
    ensures s == "P7NZTCSKCUTWJBYD"
  {
    LettersOfSlices();
    assert [s[0], s[1], s[2], s[3]] == "P7NZ" && [s[4], s[5], s[6], s[7]] == "TCSK";
    assert [s[8], s[9], s[10], s[11]] == "CUTW" && [s[12], s[13], s[14], s[15]] == "JBYD";
  }

  /** One serial number in full: the key 0123456789ABCDEF in hexadecimal on chip id 6572 in hexadecimal. */
  lemma SerialOfOneKey()
    ensures Serial(0x0123_4567_89AB_CDEF, 0x6572) == "P7NZTCSKCUTWJBYD"
  {
    var key: Key, chipId: nat := 0x0123_4567_89AB_CDEF, 0x6572;
    LettersOfOneKey(key, chipId);
    ShowsInFull(Serial(key, chipId));
  }
}
