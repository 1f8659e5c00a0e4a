/** The 32-bit FNV-1a hash of internal/router/balancer.go. */
module Hashing {
  import opened Arithmetic

  const WORDS := 0x1_0000_0000

  type Word = n: nat | n < WORDS

  /** A Go string is hashed rune by rune; ranging over a string yields Unicode scalar values only. */
  type Rune = n: nat | n < 0xD800 || 0xE000 <= n <= 0x10FFFF

  const OFFSET_BASIS: Word := 2166136261
  const PRIME: Word := 16777619

  /** The inverse of PRIME modulo 2^32. */
  const UNPRIME: Word := 0x359c449b

  // ----- Exclusive or, bit by bit -----

  function Xor(a: nat, b: nat): nat {
    if a == 0 && b == 0 then 0
    else 2 * Xor(a / 2, b / 2) + if a % 2 == b % 2 then 0 else 1
  }

  function Pow2(k: nat): nat {
    if k == 0 then 1 else 2 * Pow2(k - 1)
  }

  lemma {:induction false} XorFits(a: nat, b: nat, k: nat)
    requires a < Pow2(k) && b < Pow2(k)
    ensures Xor(a, b) < Pow2(k)
  {
    if k != 0 {
      XorFits(a / 2, b / 2, k - 1);
    }
  }

  lemma {:induction false} XorTwice(a: nat, b: nat)
    ensures Xor(Xor(a, b), b) == a
    decreases a + b
  {
    if a != 0 || b != 0 {
      XorTwice(a / 2, b / 2);
      var half := Xor(a / 2, b / 2);
      assert Xor(a, b) / 2 == half;
    }
  }

  lemma {:induction false} XorCommutes(a: nat, b: nat)
    ensures Xor(a, b) == Xor(b, a)
    decreases a + b
  {
    if a != 0 || b != 0 {
      XorCommutes(a / 2, b / 2);
    }
  }

  lemma {:induction false} XorJoin(a: nat, b: nat, high: nat)
    requires high == Xor(a / 2, b / 2)
    ensures Xor(a, b) == 2 * high + if a % 2 == b % 2 then 0 else 1
  {
  }

  /** A number without its lowest `k` bits. */
  function Shift(a: nat, k: nat): nat {
    if k == 0 then a else Shift(a / 2, k - 1)
  }

  lemma {:induction false} XorShift(a: nat, b: nat, k: nat)
    ensures Shift(Xor(a, b), k) == Xor(Shift(a, k), Shift(b, k))
  {
    if k != 0 {
      XorJoin(a, b, Xor(a / 2, b / 2));
      XorShift(a / 2, b / 2, k - 1);
    }
  }

  lemma XorLowest(a: nat, b: nat, high: nat, x: nat)
    requires high == Xor(a / 2, b / 2) && x == Xor(a, b)
    ensures x % 2 == 1 <==> a % 2 != b % 2
  {
    XorJoin(a, b, high);
    DivModUnique(x, 2, high, if a % 2 == b % 2 then 0 else 1);
  }

  /** Exclusive or is what it is bit by bit: a bit is set if it is set in one operand and not in the other. */
  lemma {:induction false} XorBits(a: nat, b: nat, k: nat)
    ensures Shift(Xor(a, b), k) % 2 == 1 <==> Shift(a, k) % 2 != Shift(b, k) % 2
  {
    XorShift(a, b, k);
    XorLowest(Shift(a, k), Shift(b, k), Xor(Shift(a, k) / 2, Shift(b, k) / 2), Shift(Xor(a, b), k));
  }

  /** The number in the low `k` bits of a machine word. */
  function LowBits(w: bv32, k: nat): nat
    decreases k
  {
    if k == 0 then 0 else 2 * LowBits(w >> 1, k - 1) + if w & 1 == 1 then 1 else 0
  }

  lemma ShiftedXor(v: bv32, w: bv32)
    ensures (v ^ w) >> 1 == (v >> 1) ^ (w >> 1)
    ensures ((v ^ w) & 1 == 1) <==> ((v & 1 == 1) != (w & 1 == 1))
  {
  }

  lemma {:induction false} LowBitsSplit(w: bv32, k: nat)
    requires k != 0
    ensures LowBits(w, k) / 2 == LowBits(w >> 1, k - 1)
    ensures LowBits(w, k) % 2 == if w & 1 == 1 then 1 else 0
  {
    var high := LowBits(w >> 1, k - 1);
    DivModUnique(LowBits(w, k), 2, high, if w & 1 == 1 then 1 else 0);
  }

  lemma {:induction false} LowBitsOfXor(v: bv32, w: bv32, k: nat, high: nat)
    requires k != 0 && high == LowBits((v >> 1) ^ (w >> 1), k - 1)
    ensures LowBits(v ^ w, k) == 2 * high + if (v & 1 == 1) != (w & 1 == 1) then 1 else 0
  {
    ShiftedXor(v, w);
  }

  lemma {:induction false} XorIs(a: nat, b: nat, p: bool, q: bool, high: nat, x: nat)
    requires a % 2 == (if p then 1 else 0) && b % 2 == (if q then 1 else 0) && high == Xor(a / 2, b / 2)
    requires x == 2 * high + if p != q then 1 else 0
    ensures Xor(a, b) == x
  {
    XorJoin(a, b, high);
  }

  lemma {:induction false} XorOfWordsOn(v: bv32, w: bv32, k: nat, a: nat, b: nat, high: nat)
    requires k != 0 && a == LowBits(v, k) && b == LowBits(w, k) && high == LowBits((v >> 1) ^ (w >> 1), k - 1)
    requires Xor(LowBits(v >> 1, k - 1), LowBits(w >> 1, k - 1)) == high
    ensures Xor(a, b) == LowBits(v ^ w, k)
  {
    LowBitsSplit(v, k);
    LowBitsSplit(w, k);
    LowBitsOfXor(v, w, k, high);
    XorIs(a, b, v & 1 == 1, w & 1 == 1, high, LowBits(v ^ w, k));
  }

  /** On machine words it is their own exclusive or. */
  lemma {:induction false} XorOfWords(v: bv32, w: bv32, k: nat)
    ensures Xor(LowBits(v, k), LowBits(w, k)) == LowBits(v ^ w, k)
    decreases k
  {
    if k != 0 {
      XorOfWords(v >> 1, w >> 1, k - 1);
      XorOfWordsOn(v, w, k, LowBits(v, k), LowBits(w, k), LowBits((v >> 1) ^ (w >> 1), k - 1));
    }
  }

  function XorWord(a: Word, b: Word): Word {
    assert Pow2(32) == WORDS by {
      assert Pow2(8) == 256;
      assert Pow2(16) == 65536;
      assert Pow2(24) == 16777216;
    }
    XorFits(a, b, 32);
    Xor(a, b)
  }

  // ----- The hash -----

  function MulWord(a: Word, b: Word): Word {
    a * b % WORDS
  }

  function HashStep(h: Word, c: Rune): Word {
    MulWord(XorWord(h, c), PRIME)
  }

  function HashFrom(h: Word, key: seq<Rune>): Word {
    if key == [] then h else HashStep(HashFrom(h, key[..|key| - 1]), key[|key| - 1])
  }

  function Fnv1a(key: seq<Rune>): Word {
    HashFrom(OFFSET_BASIS, key)
  }

  method ComputeFnv1a(s: seq<Rune>) returns (h: Word)
    ensures h == Fnv1a(s)
  {
    h := OFFSET_BASIS;
    for i := 0 to |s|
      invariant h == HashFrom(OFFSET_BASIS, s[..i])
    {
      h := XorWord(h, s[i]);
      h := MulWord(h, PRIME);
      assert s[..i + 1][..i] == s[..i];
    }
    assert s[..|s|] == s;
  }

  // ----- Each step can be undone -----

  function UnhashStep(h: Word, c: Rune): Word {
    XorWord(MulWord(h, UNPRIME), c)
  }

  /** Multiplying by one number and then by its inverse modulo 2^32 changes nothing. */
  lemma MulInverse(x: Word, p: Word, u: Word, t: nat)
    requires p * u == 1 + t * WORDS
    ensures MulWord(MulWord(x, p), u) == x
  {
    var q, r := x * p / WORDS, x * p % WORDS;
    assert x * p == q * WORDS + r;
    assert r * u == (x * t - q * u) * WORDS + x by {
      assert r * u == x * p * u - q * WORDS * u;
      assert x * p * u == x * (1 + t * WORDS) by {
        assert x * p * u == x * (p * u);
      }
      assert x * (1 + t * WORDS) == x + x * t * WORDS;
    }
    DivModUnique(r * u, WORDS, x * t - q * u, x);
  }

  /** One step of the hash is a bijection of the state for each rune, because the prime is odd. */
  lemma {:induction false} StepRoundTrip(h: Word, c: Rune)
    ensures UnhashStep(HashStep(h, c), c) == h
    ensures HashStep(UnhashStep(h, c), c) == h
  {
    var t := PRIME * UNPRIME / WORDS;
    MulInverse(XorWord(h, c), PRIME, UNPRIME, t);
    MulInverse(h, UNPRIME, PRIME, t);
    XorTwice(h, c);
    XorTwice(MulWord(h, UNPRIME), c);
  }

  /** The same further runes never bring two different states together. */
  lemma {:induction false} SuffixKeepsDifference(g: Word, h: Word, key: seq<Rune>)
    ensures HashFrom(g, key) == HashFrom(h, key) <==> g == h
  {
    if key != [] {
      var n := |key| - 1;
      SuffixKeepsDifference(g, h, key[..n]);
      StepRoundTrip(HashFrom(g, key[..n]), key[n]);
      StepRoundTrip(HashFrom(h, key[..n]), key[n]);
    }
  }

  lemma {:induction false} StepSeesRune(h: Word, c: Rune, d: Rune)
    ensures HashStep(h, c) == HashStep(h, d) <==> c == d
  {
    var t := PRIME * UNPRIME / WORDS;
    MulInverse(XorWord(h, c), PRIME, UNPRIME, t);
    MulInverse(XorWord(h, d), PRIME, UNPRIME, t);
    XorCommutes(h, c);
    XorCommutes(h, d);
    XorTwice(c, h);
    XorTwice(d, h);
  }

  lemma {:induction false} HashAppend(h: Word, u: seq<Rune>, v: seq<Rune>)
    ensures HashFrom(h, u + v) == HashFrom(HashFrom(h, u), v)
  {
    if v == [] {
      assert u + v == u;
    } else {
      HashAppend(h, u, v[..|v| - 1]);
      assert (u + v)[..|u + v| - 1] == u + v[..|v| - 1];
    }
  }

  lemma {:induction false} HashOfSplit(u: seq<Rune>, c: Rune, v: seq<Rune>)
    ensures Fnv1a(u + [c] + v) == HashFrom(HashStep(HashFrom(OFFSET_BASIS, u), c), v)
  {
    HashAppend(OFFSET_BASIS, u + [c], v);
    assert (u + [c])[..|u|] == u;
  }

  /** Two keys that differ in exactly one rune never have the same hash. */
  lemma {:induction false} OneRuneChangesHash(key: seq<Rune>, i: nat, c: Rune)
    requires i < |key|
    ensures Fnv1a(key[i := c]) == Fnv1a(key) <==> c == key[i]
  {
    var u, v := key[..i], key[i + 1..];
    var h := HashFrom(OFFSET_BASIS, u);
    HashOfSplit(u, c, v);
    HashOfSplit(u, key[i], v);
    assert key[i := c] == u + [c] + v && key == u + [key[i]] + v;
    SuffixKeepsDifference(HashStep(h, c), HashStep(h, key[i]), v);
    StepSeesRune(h, c, key[i]);
  }

  // ----- The published hash -----

  /** The hash by its published numbers: it starts from 2166136261, and one more rune is exclusive or, then times 16777619 modulo 2^32. */
  lemma {:induction false} HashSpelledOut(key: seq<Rune>, c: Rune)
    ensures Fnv1a([]) == 2166136261
    ensures Fnv1a(key + [c]) == Xor(Fnv1a(key), c) * 16777619 % 0x1_0000_0000
  {
    assert (key + [c])[..|key|] == key;
  }

  /** The same on machine words. */
  lemma {:induction false} HashStepOnWords(h: Word, c: Rune, v: bv32, w: bv32)
    requires h == LowBits(v, 32) && c == LowBits(w, 32)
    ensures HashStep(h, c) == LowBits(v ^ w, 32) * 16777619 % 0x1_0000_0000
  {
    XorOfWords(v, w, 32);
  }

  // ----- Every hash is reached -----

  lemma {:induction false} XorSelf(a: nat)
    ensures Xor(a, a) == 0
  {
    if a != 0 {
      XorSelf(a / 2);
    }
  }

  /** The number with its lowest bit changed. */
  function Flip(q: nat): nat {
    if q % 2 == 0 then q + 1 else q - 1
  }

  lemma {:induction false} XorFlip(q: nat)
    ensures Xor(Flip(q), q) == 1
  {
    XorSelf(q / 2);
    XorJoin(Flip(q), q, 0);
  }

  /** Runes from 0x80000 to 0xFFFFF change bit 19 of a word and any of those below. */
  const BLOCK := 0x80000

  lemma {:induction false} ShiftByFour(a: nat)
    ensures Shift(a, 4) == a / 0x10
  {
    assert Shift(a, 4) == Shift(a / 2, 3) == Shift(a / 2 / 2, 2) == Shift(a / 2 / 2 / 2, 1) == a / 2 / 2 / 2 / 2;
  }

  lemma {:induction false} ShiftByFive(a: nat)
    ensures Shift(a, 5) == a / 0x20
  {
    ShiftByFour(a / 2);
  }

  lemma {:induction false} ShiftOn(a: nat, i: nat, j: nat)
    ensures Shift(a, i + j) == Shift(Shift(a, i), j)
  {
    if i != 0 {
      ShiftOn(a / 2, i - 1, j);
    }
  }

  lemma {:induction false} ShiftByBlock(a: nat)
    ensures Shift(a, 19) == a / BLOCK
  {
    var b, c := a / 0x20, a / 0x400;
    assert Shift(a, 5) == b by { ShiftByFive(a); }
    ShiftOn(a, 5, 14);
    ShiftByFive(b);
    ShiftOn(b, 5, 9);
    ShiftByFive(c);
    ShiftOn(c, 5, 4);
    ShiftByFour(c / 0x20);
  }

  lemma {:induction false} XorBlock(x: Word, h: Word)
    requires x / BLOCK == Flip(h / BLOCK)
    ensures BLOCK <= Xor(x, h) < 2 * BLOCK
  {
    XorShift(x, h, 19);
    XorFlip(h / BLOCK);
    ShiftByBlock(x);
    ShiftByBlock(h);
    ShiftByBlock(Xor(x, h));
  }

  lemma {:induction false} RuneBetween(x: Word, h: Word) returns (c: Rune)
    requires x / BLOCK == Flip(h / BLOCK)
    ensures XorWord(h, c) == x
  {
    XorBlock(x, h);
    c := Xor(x, h);
    XorTwice(x, h);
    XorCommutes(c, h);
  }

  /** A low part that moves a multiple of the prime into any block. */
  lemma {:induction false} LowPart(high: Word, v: nat) returns (y: nat)
    requires v < 0x2000
    ensures y < BLOCK
    ensures (high + y) * PRIME % WORDS / BLOCK == v
  {
    var start := high * PRIME % WORDS;
    var d := (v * BLOCK - start) % WORDS;
    var y0, r := d / PRIME, d % PRIME;
    var z := (r + 103167) / 103168;
    y := y0 + 256 * z;
    var e := 103168 * z - r;
    var m := high * PRIME / WORDS;
    var n := (v * BLOCK - start) / WORDS;
    assert (high + y) * PRIME == (m - n + z) * WORDS + (v * BLOCK + e) by {
      assert high * PRIME == m * WORDS + start;
      assert v * BLOCK - start == n * WORDS + d;
      assert (high + y) * PRIME == high * PRIME + y0 * PRIME + 256 * PRIME * z;
      assert 256 * PRIME == WORDS + 103168;
    }
    DivModUnique((high + y) * PRIME, WORDS, m - n + z, v * BLOCK + e);
    DivModUnique(v * BLOCK + e, BLOCK, v, e);
  }

  lemma {:induction false} Steer(h: Word, v: nat) returns (c: Rune)
    requires v < 0x2000
    ensures HashStep(h, c) / BLOCK == v
  {
    var high := Flip(h / BLOCK) * BLOCK;
    var y := LowPart(high, v);
    DivModUnique(high + y, BLOCK, Flip(h / BLOCK), y);
    c := RuneBetween(high + y, h);
  }

  lemma FlipTwice(q: nat)
    ensures Flip(Flip(q)) == q
  {
  }

  lemma {:induction false} UnprimeThenPrime(hash: Word)
    ensures MulWord(MulWord(hash, UNPRIME), PRIME) == hash
  {
    MulInverse(hash, UNPRIME, PRIME, PRIME * UNPRIME / WORDS);
  }

  lemma {:induction false} LastRune(h: Word, u: Word, hash: Word) returns (d: Rune)
    requires u / BLOCK == Flip(h / BLOCK) && MulWord(u, PRIME) == hash
    ensures HashStep(h, d) == hash
  {
    d := RuneBetween(u, h);
  }

  /** From every state two runes lead to every hash. */
  lemma {:induction false} TwoRunesReach(h: Word, hash: Word) returns (c: Rune, d: Rune)
    ensures HashStep(HashStep(h, c), d) == hash
  {
    var u := MulWord(hash, UNPRIME);
    c := Steer(h, Flip(u / BLOCK));
    FlipTwice(u / BLOCK);
    UnprimeThenPrime(hash);
    d := LastRune(HashStep(h, c), u, hash);
  }

  lemma {:induction false} HashOfTwo(h: Word, key: seq<Rune>)
    requires |key| == 2
    ensures HashFrom(h, key) == HashStep(HashStep(h, key[0]), key[1])
  {
    assert key[..1][..0] == [] && key[..1][0] == key[0];
    assert HashFrom(h, key[..1]) == HashStep(h, key[0]);
  }

  /** Every hash is that of some key. */
  lemma {:induction false} EveryHashIsReached(hash: Word) returns (key: seq<Rune>)
    ensures |key| == 2 && Fnv1a(key) == hash
  {
    var c, d := TwoRunesReach(OFFSET_BASIS, hash);
    key := [c, d];
    HashOfTwo(OFFSET_BASIS, key);
  }
}
