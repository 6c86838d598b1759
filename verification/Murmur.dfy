/** MurmurHash3_x86_32, the hash behind the connection table.  Blocks are read little-endian, as on the machines
    the C code assumes. */
module Murmur {
  type Byte = bv8
  type Word = bv32

  // ---------------------------------------------------------------- words

  /** `rotl32` by 15 and 13, and the rotations that undo them. */
  function Rotl15(x: Word): Word { (x << 15) | (x >> 17) }
  function Rotl17(x: Word): Word { (x << 17) | (x >> 15) }
  function Rotl13(x: Word): Word { (x << 13) | (x >> 19) }
  function Rotl19(x: Word): Word { (x << 19) | (x >> 13) }

  /** The multiplications, each with its inverse modulo 2 to the 32. */
  function TimesC1(x: Word): Word { x * 0xcc9e2d51 }
  function OverC1(x: Word): Word { x * 0xdee13bb1 }
  function TimesC2(x: Word): Word { x * 0x1b873593 }
  function OverC2(x: Word): Word { x * 0x56ed309b }
  function TimesF1(x: Word): Word { x * 0x85ebca6b }
  function OverF1(x: Word): Word { x * 0xa5cb9243 }
  function TimesF2(x: Word): Word { x * 0xc2b2ae35 }
  function OverF2(x: Word): Word { x * 0x7ed1b41d }
  function Affine(x: Word): Word { x * 5 + 0xe6546b64 }
  function Unaffine(x: Word): Word { (x - 0xe6546b64) * 0xcccccccd }

  lemma Products(x: Word)
    ensures OverC1(TimesC1(x)) == x && TimesC1(OverC1(x)) == x
    ensures OverC2(TimesC2(x)) == x && TimesC2(OverC2(x)) == x
    ensures OverF1(TimesF1(x)) == x && TimesF1(OverF1(x)) == x
    ensures OverF2(TimesF2(x)) == x && TimesF2(OverF2(x)) == x
    ensures Unaffine(Affine(x)) == x && Affine(Unaffine(x)) == x
  {
  }

  /** What happens to a block before it enters the state. */
  function Scramble(k: Word): Word {
    TimesC2(Rotl15(TimesC1(k)))
  }

  function Unscramble(k: Word): Word {
    OverC1(Rotl17(OverC2(k)))
  }

  /** One step of the body. */
  function Mix(h: Word, k: Word): Word {
    Affine(Rotl13(Xor(h, Scramble(k))))
  }

  /** The xor of state and scrambled block that a step leads to h. */
  function Unstep(h: Word): Word {
    Rotl19(Unaffine(h))
  }

  function Xor(x: Word, y: Word): Word { x ^ y }
  function Right16(x: Word): Word { x >> 16 }
  function Right13(x: Word): Word { x >> 13 }
  function Right26(x: Word): Word { x >> 26 }
  function Shift16(h: Word): Word { Xor(h, Right16(h)) }
  function Shift13(h: Word): Word { Xor(h, Right13(h)) }
  function Unshift13(h: Word): Word { Xor(Xor(h, Right13(h)), Right26(h)) }

  /** The finalization mix. */
  function Fmix(h: Word): Word {
    Shift16(TimesF2(Shift13(TimesF1(Shift16(h)))))
  }

  function Unfmix(h: Word): Word {
    Shift16(OverF1(Unshift13(OverF2(Shift16(h)))))
  }

  lemma Rotations(x: Word)
    ensures Rotl17(Rotl15(x)) == x && Rotl15(Rotl17(x)) == x
    ensures Rotl19(Rotl13(x)) == x && Rotl13(Rotl19(x)) == x
  {
  }

  lemma Cancel(x: Word, a: Word)
    ensures Xor(Xor(x, a), a) == x
  {
  }

  lemma Commute(x: Word, a: Word)
    ensures Xor(x, a) == Xor(a, x)
  {
  }

  lemma Associate(x: Word, a: Word, b: Word)
    ensures Xor(Xor(x, a), b) == Xor(x, Xor(a, b))
  {
  }

  lemma Shift16Twice(x: Word)
    ensures Shift16(Shift16(x)) == x
  {
    hide Xor, Right16;
    Right16Shift16(x);
    Cancel(x, Right16(x));
  }

  lemma Right16Shift16(x: Word)
    ensures Right16(Shift16(x)) == Right16(x)
  {
  }

  lemma Shift13Inverts(x: Word)
    ensures Unshift13(Shift13(x)) == x && Shift13(Unshift13(x)) == x
  {
    hide Xor, Right13, Right26;
    var a, b := Right13(x), Right26(x);
    Right13Shift13(x);
    Right26Shift13(x);
    Associate(Xor(x, a), Xor(a, b), b);
    Cancel(a, b);
    Cancel(x, a);
    Right13Unshift13(x);
    Associate(x, a, b);
    Cancel(x, Xor(a, b));
  }

  lemma Right13Shift13(x: Word)
    ensures Right13(Shift13(x)) == Xor(Right13(x), Right26(x))
  {
  }

  lemma Right26Shift13(x: Word)
    ensures Right26(Shift13(x)) == Right26(x)
  {
  }

  lemma Right13Unshift13(x: Word)
    ensures Right13(Unshift13(x)) == Xor(Right13(x), Right26(x))
  {
  }

  /** Scrambling permutes the words. */
  lemma ScrambleInverts(k: Word)
    ensures Unscramble(Scramble(k)) == k && Scramble(Unscramble(k)) == k
  {
    hide TimesC1, OverC1, TimesC2, OverC2, Rotl15, Rotl17;
    Products(k);
    Rotations(TimesC1(k));
    Products(Rotl15(TimesC1(k)));
    Rotations(OverC2(k));
    Products(Rotl17(OverC2(k)));
  }

  /** A step permutes what enters it. */
  lemma StepInverts(x: Word)
    ensures Unstep(Affine(Rotl13(x))) == x && Affine(Rotl13(Unstep(x))) == x
  {
    hide Affine, Unaffine, Rotl13, Rotl19;
    Products(Rotl13(x));
    Rotations(x);
    Products(x);
    Rotations(Unaffine(x));
  }

  /** Finalization permutes the words. */
  lemma FmixInverts(h: Word)
    ensures Unfmix(Fmix(h)) == h && Fmix(Unfmix(h)) == h
  {
    hide TimesF1, OverF1, TimesF2, OverF2, Shift16, Shift13, Unshift13;
    var a := Shift16(h);
    var b := TimesF1(a);
    var d := TimesF2(Shift13(b));
    Shift16Twice(h);
    Products(a);
    Shift13Inverts(b);
    Products(Shift13(b));
    Shift16Twice(d);
    var c := OverF2(a);
    var e := OverF1(Unshift13(c));
    Shift13Inverts(c);
    Products(Unshift13(c));
    Shift16Twice(e);
  }

  // ---------------------------------------------------------------- keys

  /** A key's length is a C int. */
  predicate Key(key: seq<Byte>) {
    |key| < 0x8000_0000
  }

  function Bytes4(a: Byte, b: Byte, c: Byte, d: Byte): Word {
    (a as Word) | (b as Word << 8) | (c as Word << 16) | (d as Word << 24)
  }

  /** `getblock32`, counted from the start of the key. */
  function Block(key: seq<Byte>, i: nat): Word
    requires 4 * i + 4 <= |key|
  {
    Bytes4(key[4 * i], key[4 * i + 1], key[4 * i + 2], key[4 * i + 3])
  }

  /** The state after the first n blocks. */
  function Body(key: seq<Byte>, n: nat, seed: Word): Word
    requires 4 * n <= |key|
  {
    if n == 0 then seed else Mix(Body(key, n - 1, seed), Block(key, n - 1))
  }

  /** The zero to three bytes left over, as a word. */
  function TailWord(tail: seq<Byte>): Word
    requires |tail| < 4
  {
    var k3 := if |tail| > 2 then Xor(0, tail[2] as Word << 16) else 0;
    var k2 := if |tail| > 1 then Xor(k3, tail[1] as Word << 8) else k3;
    if |tail| > 0 then Xor(k2, tail[0] as Word) else k2
  }

  /** The bytes after the last whole block. */
  function Tail(key: seq<Byte>): (t: seq<Byte>)
    ensures |t| < 4
  {
    key[|key| / 4 * 4..]
  }

  /** What finalization is applied to, from the state after the body. */
  function Finish(key: seq<Byte>, h: Word): Word
    requires Key(key)
  {
    Xor(Xor(h, Scramble(TailWord(Tail(key)))), |key| as Word)
  }

  /** The hash of a key. */
  function Hash(key: seq<Byte>, seed: Word): Word
    requires Key(key)
  {
    Fmix(Finish(key, Body(key, |key| / 4, seed)))
  }

  /** An empty tail leaves the state alone. */
  lemma NoTail(h: Word)
    ensures Xor(h, Scramble(0)) == h
  {
  }

  /** `fmix32` */
  method Fmix32(h: Word) returns (out: Word)
    ensures out == Fmix(h)
  {
    hide Xor, TimesF1, TimesF2, Right13, Right16;
    out := h;
    out := Xor(out, Right16(out));
    out := TimesF1(out);
    out := Xor(out, Right13(out));
    out := TimesF2(out);
    out := Xor(out, Right16(out));
  }

  /** `MurmurHash3_x86_32` */
  method MurmurHash3(data: array<Byte>, seed: Word) returns (out: Word)
    requires Key(data[..])
    ensures out == Hash(data[..], seed)
  {
    hide TimesC1, TimesC2, Rotl15, Rotl13, Affine, Fmix, Bytes4, Xor;
    ghost var key := data[..];
    var nblocks := data.Length / 4;
    var h1 := seed;
    for i := 0 to nblocks
      invariant h1 == Body(key, i, seed)
    {
      var k1 := Bytes4(data[4 * i], data[4 * i + 1], data[4 * i + 2], data[4 * i + 3]);
      k1 := TimesC1(k1);
      k1 := Rotl15(k1);
      k1 := TimesC2(k1);
      h1 := Xor(h1, k1);
      h1 := Rotl13(h1);
      h1 := Affine(h1);
    }
    var tail := 4 * nblocks;
    var rest := data.Length - tail;
    NoTail(h1);
    if rest > 0 {
      var k1: Word := 0;
      if rest > 2 {
        k1 := Xor(k1, data[tail + 2] as Word << 16);
      }
      if rest > 1 {
        k1 := Xor(k1, data[tail + 1] as Word << 8);
      }
      k1 := Xor(k1, data[tail] as Word);
      assert k1 == TailWord(Tail(key));
      k1 := TimesC1(k1);
      k1 := Rotl15(k1);
      k1 := TimesC2(k1);
      h1 := Xor(h1, k1);
    }
    h1 := Xor(h1, data.Length as Word);
    out := Fmix32(h1);
  }

  // ---------------------------------------------------------------- what the hash tells apart

  lemma MixInverts(h: Word, k: Word)
    ensures Xor(Unstep(Mix(h, k)), Scramble(k)) == h
    ensures Mix(Xor(Unstep(h), Scramble(k)), k) == h
    ensures Unscramble(Xor(Unstep(Mix(h, k)), h)) == k
  {
    hide Affine, Rotl13, Scramble, Unscramble, Unstep, Xor;
    var x := Scramble(k);
    StepInverts(Xor(h, x));
    Cancel(h, x);
    StepInverts(h);
    Cancel(Unstep(h), x);
    Commute(h, x);
    Cancel(x, h);
    ScrambleInverts(k);
  }

  /** The seed from which a key's first n blocks lead to the state h. */
  function Unbody(key: seq<Byte>, n: nat, h: Word): Word
    requires 4 * n <= |key|
  {
    if n == 0 then h else Unbody(key, n - 1, Xor(Unstep(h), Scramble(Block(key, n - 1))))
  }

  lemma {:induction false} BodyInverts(key: seq<Byte>, n: nat, h: Word)
    requires 4 * n <= |key|
    ensures Unbody(key, n, Body(key, n, h)) == h && Body(key, n, Unbody(key, n, h)) == h
  {
    hide Mix, Scramble, Block, Unstep, Xor;
    if n > 0 {
      var k := Block(key, n - 1);
      BodyInverts(key, n - 1, h);
      MixInverts(Body(key, n - 1, h), k);
      MixInverts(h, k);
      BodyInverts(key, n - 1, Xor(Unstep(h), Scramble(k)));
    }
  }

  lemma FinishInverts(key: seq<Byte>, h: Word)
    requires Key(key)
    ensures Unfinish(key, Finish(key, h)) == h && Finish(key, Unfinish(key, h)) == h
  {
    hide Scramble, Tail, TailWord, Xor;
    var t := Scramble(TailWord(Tail(key)));
    var l := |key| as Word;
    Cancel(Xor(h, t), l);
    Cancel(h, t);
    Cancel(Xor(h, l), t);
    Cancel(h, l);
  }

  function Unfinish(key: seq<Byte>, h: Word): Word
    requires Key(key)
  {
    Xor(Xor(h, |key| as Word), Scramble(TailWord(Tail(key))))
  }

  /** The seed under which a key hashes to a given word. */
  function SeedFor(key: seq<Byte>, out: Word): Word
    requires Key(key)
  {
    Unbody(key, |key| / 4, Unfinish(key, Unfmix(out)))
  }

  /** For every key, of any length, the hash permutes the seeds. */
  lemma SeedBijection(key: seq<Byte>, word: Word)
    requires Key(key)
    ensures Hash(key, SeedFor(key, word)) == word && SeedFor(key, Hash(key, word)) == word
  {
    hide Body, Unbody, Finish, Unfinish, Fmix, Unfmix;
    var n := |key| / 4;
    var h := Unfinish(key, Unfmix(word));
    FmixInverts(word);
    FinishInverts(key, Unfmix(word));
    BodyInverts(key, n, h);
    BodyInverts(key, n, word);
    FinishInverts(key, Body(key, n, word));
    FmixInverts(Finish(key, Body(key, n, word)));
  }

  /** States that differ stay different through equal blocks. */
  lemma {:induction false} BodiesDiffer(x: seq<Byte>, y: seq<Byte>, i: nat, n: nat, seed: Word)
    requires |x| == |y| && i < n && 4 * n <= |x| && Block(x, i) != Block(y, i)
    requires forall j :: 0 <= j < n && j != i ==> Block(x, j) == Block(y, j)
    ensures Body(x, n, seed) != Body(y, n, seed)
  {
    hide Mix, Scramble, Unscramble, Block, Unstep, Xor;
    var k, l := Block(x, n - 1), Block(y, n - 1);
    MixInverts(Body(x, n - 1, seed), k);
    MixInverts(Body(y, n - 1, seed), l);
    if i == n - 1 {
      SameBody(x, y, n - 1, seed);
    } else {
      BodiesDiffer(x, y, i, n - 1, seed);
    }
  }

  lemma {:induction false} SameBody(x: seq<Byte>, y: seq<Byte>, n: nat, seed: Word)
    requires |x| == |y| && 4 * n <= |x| && forall j :: 0 <= j < n ==> Block(x, j) == Block(y, j)
    ensures Body(x, n, seed) == Body(y, n, seed)
  {
    if n > 0 {
      SameBody(x, y, n - 1, seed);
    }
  }

  lemma BlockBytes(a: Byte, b: Byte, c: Byte, d: Byte, e: Byte, f: Byte, g: Byte, h: Byte)
    requires Bytes4(a, b, c, d) == Bytes4(e, f, g, h)
    ensures a == e && b == f && c == g && d == h
  {
  }

  /** Two keys of one length that differ in exactly one aligned block never collide. */
  lemma OneBlockDiffers(x: seq<Byte>, y: seq<Byte>, i: nat, seed: Word)
    requires Key(x) && |x| == |y| && 4 * i + 4 <= |x|
    requires x[4 * i..4 * i + 4] != y[4 * i..4 * i + 4]
    requires forall p :: 0 <= p < |x| && p / 4 != i ==> x[p] == y[p]
    ensures Hash(x, seed) != Hash(y, seed)
  {
    hide Bytes4, Body, Finish, Unfinish, Fmix, Unfmix;
    var n := |x| / 4;
    if Block(x, i) == Block(y, i) {
      BlockBytes(x[4 * i], x[4 * i + 1], x[4 * i + 2], x[4 * i + 3],
                 y[4 * i], y[4 * i + 1], y[4 * i + 2], y[4 * i + 3]);
    }
    BodiesDiffer(x, y, i, n, seed);
    assert Tail(x) == Tail(y);
    HashesDiffer(x, y, seed);
  }

  /** With equal tails, different states give different hashes. */
  lemma HashesDiffer(x: seq<Byte>, y: seq<Byte>, seed: Word)
    requires Key(x) && |x| == |y| && Tail(x) == Tail(y)
    requires Body(x, |x| / 4, seed) != Body(y, |x| / 4, seed)
    ensures Hash(x, seed) != Hash(y, seed)
  {
    hide Body, Fmix, Unfmix, Xor, Scramble, TailWord, Tail;
    var n := |x| / 4;
    FinishInverts(x, Body(x, n, seed));
    FinishInverts(y, Body(y, n, seed));
    FmixInverts(Finish(x, Body(x, n, seed)));
    FmixInverts(Finish(y, Body(y, n, seed)));
  }

  lemma TailByte1(a: Byte, b: Byte)
    requires Xor(0, a as Word) == Xor(0, b as Word)
    ensures a == b
  {
  }

  lemma TailBytes2(a: Byte, b: Byte, c: Byte, d: Byte)
    requires Xor(Xor(0, a as Word << 8), b as Word) == Xor(Xor(0, c as Word << 8), d as Word)
    ensures a == c && b == d
  {
  }

  lemma TailBytes3(a: Byte, b: Byte, c: Byte, d: Byte, e: Byte, f: Byte)
    requires Xor(Xor(Xor(0, a as Word << 16), b as Word << 8), c as Word)
          == Xor(Xor(Xor(0, d as Word << 16), e as Word << 8), f as Word)
    ensures a == d && b == e && c == f
  {
  }

  lemma TailBytes(x: seq<Byte>, y: seq<Byte>)
    requires |x| == |y| < 4 && TailWord(x) == TailWord(y)
    ensures x == y
  {
    hide Xor;
    if |x| == 1 {
      TailByte1(x[0], y[0]);
    } else if |x| == 2 {
      TailBytes2(x[1], x[0], y[1], y[0]);
    } else if |x| == 3 {
      TailBytes3(x[2], x[1], x[0], y[2], y[1], y[0]);
    }
  }

  /** Two keys of one length that differ only after the last whole block never collide. */
  lemma OnlyTailDiffers(x: seq<Byte>, y: seq<Byte>, seed: Word)
    requires Key(x) && |x| == |y| && x != y
    requires forall p :: 0 <= p < |x| / 4 * 4 ==> x[p] == y[p]
    ensures Hash(x, seed) != Hash(y, seed)
  {
    hide Bytes4, Body, Fmix, Unfmix, Xor, Scramble, Unscramble, TailWord, Tail;
    var n := |x| / 4;
    SameBody(x, y, n, seed);
    var h := Body(x, n, seed);
    var s, t := TailWord(Tail(x)), TailWord(Tail(y));
    if s == t {
      TailsDiffer(x, y);
    }
    ScrambleInverts(s);
    ScrambleInverts(t);
    var l := |x| as Word;
    Cancel(Xor(h, Scramble(s)), l);
    Cancel(Xor(h, Scramble(t)), l);
    Commute(h, Scramble(s));
    Commute(h, Scramble(t));
    Cancel(Scramble(s), h);
    Cancel(Scramble(t), h);
    FmixInverts(Finish(x, h));
    FmixInverts(Finish(y, h));
  }

  lemma TailsDiffer(x: seq<Byte>, y: seq<Byte>)
    requires |x| == |y| && x != y && forall p :: 0 <= p < |x| / 4 * 4 ==> x[p] == y[p]
    ensures TailWord(Tail(x)) != TailWord(Tail(y))
  {
    hide TailWord;
    assert x[..|x| / 4 * 4] == y[..|x| / 4 * 4];
    assert x == x[..|x| / 4 * 4] + Tail(x) && y == y[..|x| / 4 * 4] + Tail(y);
    if TailWord(Tail(x)) == TailWord(Tail(y)) {
      TailBytes(Tail(x), Tail(y));
    }
  }

  // ---------------------------------------------------------------- what the hash is

  /** The number that bytes spell, the first being the least significant. */
  function Little(bytes: seq<Byte>): Word {
    if bytes == [] then 0 else Digits(bytes[0], Little(bytes[1..]))
  }

  function Digits(b: Byte, more: Word): Word {
    b as Word + 0x100 * more
  }

  lemma LittleMore(bytes: seq<Byte>)
    requires bytes != []
    ensures Little(bytes) == Digits(bytes[0], Little(bytes[1..]))
  {
  }

  /** A block is the number its four bytes spell. */
  lemma BlockIsLittle(key: seq<Byte>, i: nat)
    requires 4 * i + 4 <= |key|
    ensures Block(key, i) == Little(key[4 * i..4 * i + 4])
  {
    hide Little, Bytes4, Digits;
    var b := key[4 * i..4 * i + 4];
    SpellFour(b);
    PlaceFour(b[0], b[1], b[2], b[3]);
  }

  lemma SpellFour(b: seq<Byte>)
    requires |b| == 4
    ensures Little(b) == Digits(b[0], Digits(b[1], Digits(b[2], Digits(b[3], 0))))
  {
    hide Little, Digits;
    LittleMore(b);
    SpellThree(b[1..]);
  }

  lemma SpellThree(b: seq<Byte>)
    requires |b| == 3
    ensures Little(b) == Digits(b[0], Digits(b[1], Digits(b[2], 0)))
  {
    hide Little, Digits;
    LittleMore(b);
    LittleMore(b[1..]);
    LittleMore(b[2..]);
    assert b[1..][1..] == b[2..] && b[2..][1..] == [];
    assert Little([]) == 0 by { LittleNone(); }
  }

  lemma LittleNone()
    ensures Little([]) == 0
  {
  }

  lemma PlaceFour(a: Byte, b: Byte, c: Byte, d: Byte)
    ensures Bytes4(a, b, c, d) == Digits(a, Digits(b, Digits(c, Digits(d, 0))))
  {
  }

  lemma PlaceThree(a: Byte, b: Byte, c: Byte)
    ensures Xor(Xor(Xor(0, c as Word << 16), b as Word << 8), a as Word)
         == Digits(a, Digits(b, Digits(c, 0)))
  {
  }

  lemma PlaceTwo(a: Byte, b: Byte)
    ensures Xor(Xor(0, b as Word << 8), a as Word) == Digits(a, Digits(b, 0))
  {
  }

  lemma PlaceOne(a: Byte)
    ensures Xor(0, a as Word) == Digits(a, 0)
  {
  }

  lemma TailOfThree(tail: seq<Byte>)
    requires |tail| == 3
    ensures TailWord(tail) == Little(tail)
  {
    hide Little, Xor, Digits;
    SpellThree(tail);
    PlaceThree(tail[0], tail[1], tail[2]);
  }

  lemma TailOfTwo(tail: seq<Byte>)
    requires |tail| == 2
    ensures TailWord(tail) == Little(tail)
  {
    hide Little, Xor, Digits;
    LittleNone();
    LittleMore(tail);
    LittleMore(tail[1..]);
    assert tail[1..][1..] == [];
    PlaceTwo(tail[0], tail[1]);
  }

  lemma TailOfOne(tail: seq<Byte>)
    requires |tail| == 1
    ensures TailWord(tail) == Little(tail)
  {
    hide Little, Xor, Digits;
    LittleNone();
    LittleMore(tail);
    assert tail[1..] == [];
    PlaceOne(tail[0]);
  }

  /** And so is the tail, of however many bytes. */
  lemma TailIsLittle(tail: seq<Byte>)
    requires |tail| < 4
    ensures TailWord(tail) == Little(tail)
  {
    hide Little, TailWord;
    if |tail| == 3 {
      TailOfThree(tail);
    } else if |tail| == 2 {
      TailOfTwo(tail);
    } else if |tail| == 1 {
      TailOfOne(tail);
    } else {
      NoTailWord();
      LittleNone();
    }
  }

  lemma NoTailWord()
    ensures TailWord([]) == 0
  {
  }

  // Known answers.

  lemma KnownEmpty()
    ensures Hash([], 1) == 0x514e28b7
  {
    hide Fmix;
    assert Finish([], 1) == 1;
    assert Fmix(1) == 0x514e28b7 by { FmixOne(); }
  }

  lemma FmixOne()
    ensures Fmix(1) == 0x514e28b7
  {
  }

  lemma KnownThree()
    ensures Hash([0x61, 0x62, 0x63], 0) == 0xb3dd93fa
  {
    hide Fmix, Scramble, TailWord;
    var key: seq<Byte> := [0x61, 0x62, 0x63];
    assert Tail(key) == key;
    ThreeBytes();
    assert Finish(key, 0) == 0xa7349db4;
  }

  lemma ThreeBytes()
    ensures TailWord([0x61, 0x62, 0x63]) == 0x636261 && Scramble(0x636261) == 0xa7349db7 && Fmix(0xa7349db4) == 0xb3dd93fa
  {
  }

  lemma KnownBlock()
    ensures Hash([0x74, 0x65, 0x73, 0x74], 0) == 0xba6bd213
  {
    hide Fmix, Scramble, TailWord, Mix, Bytes4;
    var key: seq<Byte> := [0x74, 0x65, 0x73, 0x74];
    assert Tail(key) == [];
    OneBlock();
    NoTailWord();
    NoTail(0x7985975b);
    assert Body(key, 1, 0) == 0x7985975b;
    assert Finish(key, 0x7985975b) == 0x7985975f;
  }

  lemma OneBlock()
    ensures Bytes4(0x74, 0x65, 0x73, 0x74) == 0x74736574 && Mix(0, 0x74736574) == 0x7985975b
    ensures Fmix(0x7985975f) == 0xba6bd213
  {
  }

  /** Two blocks and a tail of three bytes. */
  lemma KnownEleven()
    ensures Hash([0x68, 0x65, 0x6c, 0x6c, 0x6f, 0x20, 0x77, 0x6f, 0x72, 0x6c, 0x64], 0) == 0x5e928f0f
  {
    hide Fmix, Scramble, TailWord, Mix, Bytes4;
    var key: seq<Byte> := [0x68, 0x65, 0x6c, 0x6c, 0x6f, 0x20, 0x77, 0x6f, 0x72, 0x6c, 0x64];
    assert Tail(key) == [0x72, 0x6c, 0x64];
    TwoBlocks();
    ElevenTail();
    assert Body(key, 1, 0) == 0xef13efcd;
    assert Body(key, 2, 0) == 0xda5f6aad;
    assert Finish(key, 0xda5f6aad) == 0xffff5c7d;
  }

  lemma TwoBlocks()
    ensures Bytes4(0x68, 0x65, 0x6c, 0x6c) == 0x6c6c6568 && Mix(0, 0x6c6c6568) == 0xef13efcd
    ensures Bytes4(0x6f, 0x20, 0x77, 0x6f) == 0x6f77206f && Mix(0xef13efcd, 0x6f77206f) == 0xda5f6aad
  {
  }

  lemma ElevenTail()
    ensures TailWord([0x72, 0x6c, 0x64]) == 0x646c72 && Scramble(0x646c72) == 0x25a036db && Fmix(0xffff5c7d) == 0x5e928f0f
  {
  }
}
