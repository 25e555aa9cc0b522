/**
 The descriptor checksum of `src/utill.rs` (section "Checksum" of BIP 380).

 The source feeds a 40-bit shift register while it reads the characters. The model
 proves the streaming loop equal to the two-phase form of the standard (expand the
 text to 5-bit symbols, then fold), and proves what the code is for: the register is
 linear over GF(2) and invertible, so a change that stays inside two neighbouring
 groups of three characters always changes the checksum.
 */
module Checksum {
  import opened Common

  const ROW_0: string := "0123456789()[],'/*abcdefgh@:$%{}"
  const ROW_1: string := "IJKLMNOPQRSTUVWXYZ&+-.;<=>?!^_|~"
  const ROW_2: string := "ijklmnopqrstuvwxyzABCDEFGH`#\"\\ "
  const INPUT_CHARSET: string := ROW_0 + ROW_1 + ROW_2
  const CHECKSUM_CHARSET: string := "qpzry9x8gf2tvdw0s3jn54khce6mua7l"
  const MASK_LOW_35_BITS: bv64 := 0x7ffffffff
  const CHECKSUM_FINAL_XOR_VALUE: bv64 := 1
  const REGISTER_LIMIT: bv64 := 0x100_0000_0000
  const FEEDBACK_TERMS: seq<(bv64, bv64)> := [
    (0x1, 0xf5dee51989), (0x2, 0xa9fdca3312), (0x4, 0x1bab10e32d), (0x8, 0x3706b1677a), (0x10, 0x644d626ffd)]

  // ---------------------------------------------------------------- one step

  /** Exclusive or, named so that the algebra below can treat it as an operation. */
  function Xor(a: bv64, b: bv64): bv64 {
    a ^ b
  }

  function Tap(upper: bv64, bit: bv64, term: bv64): bv64 {
    if upper & bit != 0 then term else 0
  }

  function Shift(c: bv64): bv64 {
    (c & MASK_LOW_35_BITS) << 5
  }

  function Upper(c: bv64): bv64 {
    c >> 35
  }

  /** One register step as a formula: the shifted state plus the selected feedback terms. */
  function Step(c: bv64, v: bv64): bv64 {
    var u := Upper(c);
    Sum(Shift(c), v, Tap(u, 0x1, 0xf5dee51989), Tap(u, 0x2, 0xa9fdca3312), Tap(u, 0x4, 0x1bab10e32d),
        Tap(u, 0x8, 0x3706b1677a), Tap(u, 0x10, 0x644d626ffd))
  }

  function Sum(s: bv64, v: bv64, a: bv64, b: bv64, c: bv64, d: bv64, e: bv64): bv64 {
    s ^ v ^ a ^ b ^ c ^ d ^ e
  }

  /** The source's loop over the feedback table computes one register step. */
  method PolynomialModulus(start: bv64, value: bv64) returns (checksum: bv64)
    ensures checksum == Step(start, value)
  {
    hide Xor, Tap, Shift, Upper, Step;
    StepAsTaps(start, value);
    var upperBits := Upper(start);
    checksum := Xor(Shift(start), value);
    for i := 0 to 5
      invariant checksum == Taps(Xor(Shift(start), value), upperBits, i)
    {
      var (bit, term) := FEEDBACK_TERMS[i];
      ApplyTap(checksum, upperBits, bit, term);
      if upperBits & bit != 0 {
        checksum := Xor(checksum, term);
      }
    }
  }

  /** The register after the first n rows of the feedback table. */
  ghost function Taps(c: bv64, upper: bv64, n: nat): bv64
    requires n <= |FEEDBACK_TERMS|
  {
    if n == 0 then c
    else Xor(Taps(c, upper, n - 1), Tap(upper, FEEDBACK_TERMS[n - 1].0, FEEDBACK_TERMS[n - 1].1))
  }

  lemma StepAsTaps(c: bv64, v: bv64)
    ensures Taps(Xor(Shift(c), v), Upper(c), 5) == Step(c, v)
  {
    hide Xor, Tap, Shift, Upper, Step;
    StepAsXor(c, v);
    var s, u := Xor(Shift(c), v), Upper(c);
    var s1 := Xor(s, Tap(u, 0x1, 0xf5dee51989));
    var s2 := Xor(s1, Tap(u, 0x2, 0xa9fdca3312));
    var s3 := Xor(s2, Tap(u, 0x4, 0x1bab10e32d));
    var s4 := Xor(s3, Tap(u, 0x8, 0x3706b1677a));
    assert FEEDBACK_TERMS[0] == (0x1, 0xf5dee51989) && FEEDBACK_TERMS[1] == (0x2, 0xa9fdca3312);
    assert Taps(s, u, 1) == s1;
    assert Taps(s, u, 2) == s2;
    assert Taps(s, u, 3) == s3;
    assert Taps(s, u, 4) == s4;
  }

  lemma ApplyTap(c: bv64, upper: bv64, bit: bv64, term: bv64)
    ensures Xor(c, Tap(upper, bit, term)) == if upper & bit != 0 then Xor(c, term) else c
  {
  }

  lemma XorChain(s: bv64, v: bv64, a: bv64, b: bv64, c: bv64, d: bv64, e: bv64)
    ensures Sum(s, v, a, b, c, d, e) == Xor(Xor(Xor(Xor(Xor(Xor(s, v), a), b), c), d), e)
  {
    calc {
      Xor(Xor(Xor(Xor(Xor(Xor(s, v), a), b), c), d), e);
      Xor(Xor(Xor(Xor(Xor(s ^ v, a), b), c), d), e);
      Xor(Xor(Xor(Xor(s ^ v ^ a, b), c), d), e);
      Xor(Xor(Xor(s ^ v ^ a ^ b, c), d), e);
      Xor(Xor(s ^ v ^ a ^ b ^ c, d), e);
      Xor(s ^ v ^ a ^ b ^ c ^ d, e);
      s ^ v ^ a ^ b ^ c ^ d ^ e;
    }
  }

  lemma StepAsXor(c: bv64, v: bv64)
    ensures var u := Upper(c);
            Step(c, v) == Xor(Xor(Xor(Xor(Xor(Xor(Shift(c), v), Tap(u, 0x1, 0xf5dee51989)), Tap(u, 0x2, 0xa9fdca3312)),
                                          Tap(u, 0x4, 0x1bab10e32d)), Tap(u, 0x8, 0x3706b1677a)), Tap(u, 0x10, 0x644d626ffd))
  {
    hide Xor, Tap, Shift, Upper, Sum;
    var u := Upper(c);
    XorChain(Shift(c), v, Tap(u, 0x1, 0xf5dee51989), Tap(u, 0x2, 0xa9fdca3312), Tap(u, 0x4, 0x1bab10e32d),
             Tap(u, 0x8, 0x3706b1677a), Tap(u, 0x10, 0x644d626ffd));
  }

  lemma XorUnit(x: bv64)
    ensures Xor(x, x) == 0 && Xor(x, 0) == x && Xor(0, x) == x
  {
  }

  lemma XorSymmetric(a: bv64, b: bv64)
    ensures Xor(a, b) == Xor(b, a)
  {
  }

  lemma XorAssociative(a: bv64, b: bv64, c: bv64)
    ensures Xor(Xor(a, b), c) == Xor(a, Xor(b, c))
  {
    calc {
      Xor(Xor(a, b), c);
      Xor(a ^ b, c);
      (a ^ b) ^ c;
      a ^ (b ^ c);
      Xor(a, b ^ c);
      Xor(a, Xor(b, c));
    }
  }

  lemma XorZero(x: bv64, y: bv64)
    ensures Xor(x, y) == 0 <==> x == y
  {
  }

  lemma XorBounded(x: bv64, y: bv64)
    ensures x < REGISTER_LIMIT && y < REGISTER_LIMIT ==> Xor(x, y) < REGISTER_LIMIT
    ensures x < 32 && y < 32 ==> Xor(x, y) < 32
  {
  }

  lemma XorInterchange(a: bv64, b: bv64, c: bv64, d: bv64)
    ensures Xor(Xor(a, b), Xor(c, d)) == Xor(Xor(a, c), Xor(b, d))
  {
    hide Xor;
    XorAssociative(a, b, Xor(c, d));
    XorAssociative(b, c, d);
    XorSymmetric(b, c);
    XorAssociative(c, b, d);
    XorAssociative(a, c, Xor(b, d));
  }

  predicate OneBit(k: bv64) {
    k == 0x1 || k == 0x2 || k == 0x4 || k == 0x8 || k == 0x10
  }

  lemma MaskLinear(a: bv64, b: bv64, k: bv64)
    ensures Xor(a, b) & k == Xor(a & k, b & k)
  {
  }

  lemma MaskOneBit(a: bv64, k: bv64)
    requires OneBit(k)
    ensures a & k == 0 || a & k == k
  {
  }

  lemma TapLinear(a: bv64, b: bv64, k: bv64, t: bv64)
    requires OneBit(k)
    ensures Tap(Xor(a, b), k, t) == Xor(Tap(a, k, t), Tap(b, k, t))
  {
    hide Xor;
    MaskLinear(a, b, k);
    MaskOneBit(a, k);
    MaskOneBit(b, k);
    XorUnit(k);
    XorUnit(t);
    XorUnit(0);
  }

  lemma ShiftLinear(a: bv64, b: bv64)
    ensures Shift(a ^ b) == Shift(a) ^ Shift(b)
    ensures Upper(a ^ b) == Upper(a) ^ Upper(b)
  {
  }

  /** The step is linear over GF(2) in the register and the symbol together. */
  lemma StepLinear(a: bv64, b: bv64, x: bv64, y: bv64)
    ensures Step(Xor(a, b), Xor(x, y)) == Xor(Step(a, x), Step(b, y))
  {
    hide Shift, Upper;
    ShiftLinear(a, b);
    StepLinearFrom(a, b, x, y);
  }

  lemma Absorb(p: bv64, q: bv64, s: bv64, t: bv64, bit: bv64, term: bv64) returns (s': bv64, t': bv64)
    requires OneBit(bit)
    ensures s' == Xor(s, Tap(p, bit, term)) && t' == Xor(t, Tap(q, bit, term))
    ensures Xor(Xor(s, t), Tap(Xor(p, q), bit, term)) == Xor(s', t')
  {
    hide Xor, Tap;
    TapLinear(p, q, bit, term);
    XorInterchange(s, t, Tap(p, bit, term), Tap(q, bit, term));
    s', t' := Xor(s, Tap(p, bit, term)), Xor(t, Tap(q, bit, term));
  }

  lemma StepLinearFrom(a: bv64, b: bv64, x: bv64, y: bv64)
    requires Shift(Xor(a, b)) == Xor(Shift(a), Shift(b))
    requires Upper(Xor(a, b)) == Xor(Upper(a), Upper(b))
    ensures Step(Xor(a, b), Xor(x, y)) == Xor(Step(a, x), Step(b, y))
  {
    hide Xor, Tap, Shift, Upper, Step;
    StepAsXor(a, x);
    StepAsXor(b, y);
    StepAsXor(Xor(a, b), Xor(x, y));
    var p, q := Upper(a), Upper(b);
    XorInterchange(Shift(a), Shift(b), x, y);
    var s0, t0 := Xor(Shift(a), x), Xor(Shift(b), y);
    var s1, t1 := Absorb(p, q, s0, t0, 0x1, 0xf5dee51989);
    var s2, t2 := Absorb(p, q, s1, t1, 0x2, 0xa9fdca3312);
    var s3, t3 := Absorb(p, q, s2, t2, 0x4, 0x1bab10e32d);
    var s4, t4 := Absorb(p, q, s3, t3, 0x8, 0x3706b1677a);
    var s5, t5 := Absorb(p, q, s4, t4, 0x10, 0x644d626ffd);
  }

  /** For a fixed symbol the step is invertible on 40-bit states. */
  lemma StepInjective(x: bv64, y: bv64, v: bv64)
    requires x < REGISTER_LIMIT && y < REGISTER_LIMIT
    ensures Step(x, v) == Step(y, v) ==> x == y
  {
    hide Xor, Step;
    StepLinear(x, y, v, v);
    XorUnit(v);
    XorZero(Step(x, v), Step(y, v));
    XorBounded(x, y);
    StepKernel(Xor(x, y));
    XorZero(x, y);
  }

  lemma StepBounded(c: bv64, v: bv64)
    requires c < REGISTER_LIMIT && v < 32
    ensures Step(c, v) < REGISTER_LIMIT
  {
  }

  lemma StepKernel(c: bv64)
    requires c < REGISTER_LIMIT
    ensures Step(c, 0) == 0 ==> c == 0
  {
  }

  // ---------------------------------------------------------------- folding symbols

  function Fold(c: bv64, symbols: seq<bv64>): bv64
    decreases |symbols|
  {
    if symbols == [] then c else Fold(Step(c, symbols[0]), symbols[1..])
  }

  predicate FiveBit(symbols: seq<bv64>) {
    forall i :: 0 <= i < |symbols| ==> symbols[i] < 32
  }

  lemma {:induction false} FoldAppend(c: bv64, a: seq<bv64>, b: seq<bv64>)
    ensures Fold(c, a + b) == Fold(Fold(c, a), b)
    decreases |a|
  {
    if a == [] {
      assert a + b == b;
    } else {
      assert (a + b)[1..] == a[1..] + b;
      FoldAppend(Step(c, a[0]), a[1..], b);
    }
  }

  /** The register never leaves 40 bits. */
  lemma {:induction false} FoldBounded(c: bv64, symbols: seq<bv64>)
    requires c < REGISTER_LIMIT && FiveBit(symbols)
    ensures Fold(c, symbols) < REGISTER_LIMIT
    decreases |symbols|
  {
    if symbols != [] {
      StepBounded(c, symbols[0]);
      FoldBounded(Step(c, symbols[0]), symbols[1..]);
    }
  }

  /** Feeding the same symbols never merges two different registers. */
  lemma {:induction false} FoldInjective(x: bv64, y: bv64, symbols: seq<bv64>)
    requires x < REGISTER_LIMIT && y < REGISTER_LIMIT && FiveBit(symbols)
    ensures Fold(x, symbols) == Fold(y, symbols) ==> x == y
    decreases |symbols|
  {
    if symbols != [] {
      StepBounded(x, symbols[0]);
      StepBounded(y, symbols[0]);
      StepInjective(x, y, symbols[0]);
      FoldInjective(Step(x, symbols[0]), Step(y, symbols[0]), symbols[1..]);
    }
  }

  /** 32^k, the size of a register that has absorbed k symbols. */
  function Digits(k: nat): bv64
    requires k <= 8
  {
    match k
    case 0 => 0x1
    case 1 => 0x20
    case 2 => 0x400
    case 3 => 0x8000
    case 4 => 0x10_0000
    case 5 => 0x200_0000
    case 6 => 0x4000_0000
    case 7 => 0x8_0000_0000
    case 8 => 0x100_0000_0000
  }

  /** Appends one symbol to a register that has room for it. */
  function Push(d: bv64, e: bv64): bv64 {
    (d << 5) ^ e
  }

  lemma SmallStep(d: bv64, e: bv64)
    requires d < 0x8_0000_0000 && e < 32
    ensures Step(d, e) == Push(d, e)
  {
    assert Upper(d) == 0;
    assert Tap(0, 0x1, 0xf5dee51989) == 0 && Tap(0, 0x2, 0xa9fdca3312) == 0 && Tap(0, 0x4, 0x1bab10e32d) == 0;
    assert Tap(0, 0x8, 0x3706b1677a) == 0 && Tap(0, 0x10, 0x644d626ffd) == 0;
  }

  lemma SmallStepSize(d: bv64, e: bv64, k: nat)
    requires k < 8 && d < Digits(k) && e < 32
    ensures d < 0x8_0000_0000
    ensures Push(d, e) < Digits(k + 1)
    ensures Push(d, e) == 0 ==> d == 0 && e == 0
  {
    match k
    case 0 =>
    case 1 =>
    case 2 =>
    case 3 =>
    case 4 =>
    case 5 =>
    case 6 =>
    case 7 =>
  }

  /** While the difference of two registers has room, it records every difference of the symbols. */
  lemma DifferenceStep(x: bv64, y: bv64, e: bv64, f: bv64, k: nat)
    requires k < 8 && Xor(x, y) < Digits(k) && e < 32 && f < 32
    ensures Xor(Step(x, e), Step(y, f)) == Push(Xor(x, y), Xor(e, f))
    ensures Xor(Step(x, e), Step(y, f)) < Digits(k + 1)
    ensures Step(x, e) == Step(y, f) ==> x == y && e == f
  {
    hide Xor, Step, Push, Digits;
    XorBounded(e, f);
    StepLinear(x, y, e, f);
    SmallStepSize(Xor(x, y), Xor(e, f), k);
    SmallStep(Xor(x, y), Xor(e, f));
    XorZero(Step(x, e), Step(y, f));
    XorZero(x, y);
    XorZero(e, f);
  }

  /** Up to eight symbols fit the register, so they cannot cancel each other. */
  lemma {:induction false} WindowInjective(x: bv64, y: bv64, a: seq<bv64>, b: seq<bv64>, k: nat)
    requires |a| == |b| && k + |a| <= 8 && FiveBit(a) && FiveBit(b)
    requires Xor(x, y) < Digits(k)
    ensures Fold(x, a) == Fold(y, b) ==> x == y && a == b
    decreases |a|
  {
    hide Xor, Step, Push, Digits;
    if a == [] {
      assert b == [];
    } else {
      DifferenceStep(x, y, a[0], b[0], k);
      WindowInjective(Step(x, a[0]), Step(y, b[0]), a[1..], b[1..], k + 1);
      assert a == [a[0]] + a[1..] && b == [b[0]] + b[1..];
    }
  }

  function Pack(d: bv64, symbols: seq<bv64>): bv64
    decreases |symbols|
  {
    if symbols == [] then d else Pack(Push(d, symbols[0]), symbols[1..])
  }

  function Zeros(n: nat): (zs: seq<bv64>)
    ensures |zs| == n
  {
    if n == 0 then [] else [0] + Zeros(n - 1)
  }

  lemma {:induction false} WindowDifference(x: bv64, y: bv64, a: seq<bv64>, k: nat)
    requires k + |a| <= 8 && FiveBit(a) && Xor(x, y) < Digits(k)
    ensures Xor(Fold(x, a), Fold(y, Zeros(|a|))) == Pack(Xor(x, y), a)
    decreases |a|
  {
    hide Xor, Step, Push, Digits;
    if a != [] {
      var zs := Zeros(|a|);
      assert zs[0] == 0 && zs[1..] == Zeros(|a[1..]|);
      assert Fold(y, zs) == Fold(Step(y, 0), zs[1..]);
      DifferenceStep(x, y, a[0], 0, k);
      XorUnit(a[0]);
      WindowDifference(Step(x, a[0]), Step(y, 0), a[1..], k + 1);
    }
  }

  // ---------------------------------------------------------------- text to symbols

  function Find(text: string, c: char): (r: Option<nat>)
    ensures r.Some? ==> r.value < |text| && text[r.value] == c
    ensures r.None? <==> c !in text
  {
    if text == [] then None
    else if text[0] == c then Some(0)
    else match Find(text[1..], c)
      case None => None
      case Some(i) => Some(i + 1)
  }

  predicate Known(c: char) {
    c in INPUT_CHARSET
  }

  predicate Valid(descriptor: string) {
    forall i :: 0 <= i < |descriptor| ==> Known(descriptor[i])
  }

  /** Where the character stands in the input alphabet. */
  function IndexOf(c: char): (r: Option<nat>)
    ensures r.Some? <==> Known(c)
    ensures r.Some? ==> r.value < 95 && r.value < |INPUT_CHARSET| && INPUT_CHARSET[r.value] == c
  {
    CharsetLength();
    Find(INPUT_CHARSET, c)
  }

  function IndexBits(i: nat): (p: bv64)
    requires i < 95
    ensures p < 96
  {
    (i as bv8) as bv64
  }

  lemma IndexRoundTrip(i: nat)
    requires i < 95
    ensures (i as bv8) as nat == i
  {
  }

  lemma IndexBitsInjective(i: nat, j: nat)
    requires i < 95 && j < 95
    ensures IndexBits(i) == IndexBits(j) ==> i == j
  {
    IndexRoundTrip(i);
    IndexRoundTrip(j);
  }

  /** The index of a character in the 95-character input alphabet. */
  function Position(c: char): (p: bv64)
    requires Known(c)
    ensures p < 96
  {
    IndexBits(IndexOf(c).value)
  }

  function FindPosition(c: char): (r: Option<bv64>)
    ensures r.Some? <==> Known(c)
    ensures r.Some? ==> r.value == Position(c)
  {
    match IndexOf(c)
    case None => None
    case Some(i) => Some(IndexBits(i))
  }

  /** The number of a character in the alphabet of BIP 380: three rows of 32, letters and digits in order. */
  function Rank(c: char): nat {
    if '0' <= c <= '9' then (c - '0') as nat
    else if 'a' <= c <= 'h' then 18 + (c - 'a') as nat
    else if 'I' <= c <= 'Z' then 32 + (c - 'I') as nat
    else if 'i' <= c <= 'z' then 64 + (c - 'i') as nat
    else if 'A' <= c <= 'H' then 82 + (c - 'A') as nat
    else match c
      case '(' => 10 case ')' => 11 case '[' => 12 case ']' => 13 case ',' => 14 case '\'' => 15 case '/' => 16 case '*' => 17
      case '@' => 26 case ':' => 27 case '$' => 28 case '%' => 29 case '{' => 30 case '}' => 31
      case '&' => 50 case '+' => 51 case '-' => 52 case '.' => 53 case ';' => 54 case '<' => 55 case '=' => 56 case '>' => 57
      case '?' => 58 case '!' => 59 case '^' => 60 case '_' => 61 case '|' => 62 case '~' => 63
      case '`' => 90 case '#' => 91 case '"' => 92 case '\\' => 93 case ' ' => 94
      case _ => 95
  }

  lemma RankRow0(i: nat)
    requires i < 32
    ensures |ROW_0| == 32 && Rank(ROW_0[i]) == i
  {
  }

  lemma RankLetters(i: nat)
    requires i < 18
    ensures |ROW_1| == 32 && Rank(ROW_1[i]) == 32 + i && |ROW_2| == 31 && Rank(ROW_2[i]) == 64 + i
  {
  }

  lemma RankRow1(i: nat)
    requires 18 <= i < 32
    ensures |ROW_1| == 32 && Rank(ROW_1[i]) == 32 + i
  {
  }

  lemma RankRow2(i: nat)
    requires 18 <= i < 31
    ensures |ROW_2| == 31 && Rank(ROW_2[i]) == 64 + i
  {
  }

  lemma CharsetLength()
    ensures |ROW_0| == 32 && |ROW_1| == 32 && |ROW_2| == 31 && |INPUT_CHARSET| == 95
  {
  }

  lemma RankAt(i: nat)
    requires i < |INPUT_CHARSET|
    ensures Rank(INPUT_CHARSET[i]) == i
  {
    hide Rank;
    CharsetLength();
    if i < 32 {
      RankRow0(i);
    } else if i < 50 {
      RankLetters(i - 32);
    } else if i < 64 {
      RankRow1(i - 32);
    } else if i < 82 {
      RankLetters(i - 64);
    } else {
      RankRow2(i - 64);
    }
  }

  /** Every character stands for its own number, so the alphabet is read in the right order. */
  lemma PositionAt(i: nat, c: char)
    requires i < |INPUT_CHARSET| && c == INPUT_CHARSET[i]
    ensures i < 95 && Rank(c) == i && Known(c) && Position(c) == IndexBits(i)
  {
    hide IndexBits, Rank, IndexOf;
    CharsetLength();
    RankAt(i);
    RankAt(IndexOf(c).value);
  }

  lemma PositionInjective(c: char, d: char)
    requires Known(c) && Known(d) && Position(c) == Position(d)
    ensures c == d
  {
    hide IndexBits, IndexOf, Known;
    IndexBitsInjective(IndexOf(c).value, IndexOf(d).value);
  }

  function Positions(descriptor: string): (ps: seq<bv64>)
    requires Valid(descriptor)
    ensures |ps| == |descriptor| && forall i :: 0 <= i < |ps| ==> ps[i] == Position(descriptor[i])
  {
    seq(|descriptor|, i requires 0 <= i < |descriptor| => Position(descriptor[i]))
  }

  predicate InAlphabet(ps: seq<bv64>) {
    forall i :: 0 <= i < |ps| ==> ps[i] < 96
  }

  function Low(p: bv64): bv64 {
    p & 31
  }

  function High(p: bv64): bv64 {
    p >> 5
  }

  function Lows(ps: seq<bv64>): (lows: seq<bv64>)
    ensures |lows| == |ps| && forall i :: 0 <= i < |ps| ==> lows[i] == Low(ps[i])
  {
    seq(|ps|, i requires 0 <= i < |ps| => Low(ps[i]))
  }

  /** Appends the high part of one character as a base-3 digit. */
  function Accumulate(acc: bv64, p: bv64): bv64 {
    acc * 3 + High(p)
  }

  function Highs(ps: seq<bv64>): bv64 {
    if ps == [] then 0 else Accumulate(Highs(ps[..|ps| - 1]), ps[|ps| - 1])
  }

  function Group(ps: seq<bv64>): seq<bv64> {
    Lows(ps) + [Highs(ps)]
  }

  /** The symbols of a descriptor: each group of at most three characters, then its high parts. */
  function Expand(ps: seq<bv64>): seq<bv64> {
    if ps == [] then []
    else if |ps| <= 3 then Group(ps)
    else Group(ps[..3]) + Expand(ps[3..])
  }

  lemma HighsByCases(ps: seq<bv64>)
    ensures |ps| == 0 ==> Highs(ps) == 0
    ensures |ps| == 1 ==> Highs(ps) == Accumulate(0, ps[0])
    ensures |ps| == 2 ==> Highs(ps) == Accumulate(Accumulate(0, ps[0]), ps[1])
    ensures |ps| == 3 ==> Highs(ps) == Accumulate(Accumulate(Accumulate(0, ps[0]), ps[1]), ps[2])
  {
    hide Accumulate;
    if 1 <= |ps| <= 3 {
      HighsByCases(ps[..|ps| - 1]);
    }
  }

  lemma AccumulateInjective(a: bv64, b: bv64, c: bv64, x: bv64, y: bv64, z: bv64)
    requires a < 96 && b < 96 && c < 96 && x < 96 && y < 96 && z < 96
    ensures Accumulate(0, a) == High(a) && High(a) < 32
    ensures Accumulate(Accumulate(0, a), b) < 32
    ensures Accumulate(Accumulate(Accumulate(0, a), b), c) < 32
    ensures Accumulate(Accumulate(0, a), b) == Accumulate(Accumulate(0, x), y) ==> High(a) == High(x) && High(b) == High(y)
    ensures Accumulate(Accumulate(Accumulate(0, a), b), c) == Accumulate(Accumulate(Accumulate(0, x), y), z)
        ==> High(a) == High(x) && High(b) == High(y) && High(c) == High(z)
  {
  }

  lemma LowHigh(p: bv64, q: bv64)
    ensures Low(p) < 32
    ensures Low(p) == Low(q) && High(p) == High(q) ==> p == q
  {
  }

  lemma HighsInjective(a: seq<bv64>, b: seq<bv64>)
    requires 1 <= |a| <= 3 && |a| == |b| && InAlphabet(a) && InAlphabet(b)
    ensures Highs(a) < 32
    ensures Highs(a) == Highs(b) ==> forall i :: 0 <= i < |a| ==> High(a[i]) == High(b[i])
  {
    hide Accumulate, High;
    HighsByCases(a);
    HighsByCases(b);
    AccumulateInjective(a[0], if |a| > 1 then a[1] else 0, if |a| > 2 then a[2] else 0,
                        b[0], if |a| > 1 then b[1] else 0, if |a| > 2 then b[2] else 0);
    AccumulateInjective(b[0], 0, 0, a[0], 0, 0);
  }

  lemma GroupInjective(a: seq<bv64>, b: seq<bv64>)
    requires 1 <= |a| <= 3 && |a| == |b| && InAlphabet(a) && InAlphabet(b)
    ensures |Group(a)| == |a| + 1 && FiveBit(Group(a))
    ensures Group(a) == Group(b) ==> a == b
  {
    hide Highs, Low, High;
    HighsInjective(a, b);
    assert Group(a)[|a|] == Highs(a) && Group(b)[|b|] == Highs(b);
    forall i | 0 <= i < |a|
      ensures Group(a)[i] < 32
      ensures Group(a)[i] == Group(b)[i] && High(a[i]) == High(b[i]) ==> a[i] == b[i]
    {
      LowHigh(a[i], b[i]);
    }
  }

  lemma {:induction false} ExpandInjective(a: seq<bv64>, b: seq<bv64>)
    requires |a| == |b| && InAlphabet(a) && InAlphabet(b)
    ensures |Expand(a)| == |Expand(b)| == |a| + (|a| + 2) / 3
    ensures Expand(a) == Expand(b) ==> a == b
  {
    hide Group;
    if a == [] {
    } else if |a| <= 3 {
      GroupInjective(a, b);
      GroupInjective(b, a);
    } else {
      GroupInjective(a[..3], b[..3]);
      GroupInjective(b[..3], a[..3]);
      ExpandInjective(a[3..], b[3..]);
      assert a == a[..3] + a[3..] && b == b[..3] + b[3..];
      if Expand(a) == Expand(b) {
        assert Expand(a)[..4] == Group(a[..3]) && Expand(a)[4..] == Expand(a[3..]);
        assert Expand(b)[..4] == Group(b[..3]) && Expand(b)[4..] == Expand(b[3..]);
      }
    }
  }

  /** Every value fed to the register is a five-bit symbol. */
  lemma {:induction false} ExpandFiveBit(ps: seq<bv64>)
    requires InAlphabet(ps)
    ensures FiveBit(Expand(ps))
  {
    hide Group;
    if ps == [] {
    } else if |ps| <= 3 {
      GroupInjective(ps, ps);
    } else {
      GroupInjective(ps[..3], ps[..3]);
      ExpandFiveBit(ps[3..]);
    }
  }

  lemma {:induction false} ExpandAppend(a: seq<bv64>, b: seq<bv64>)
    requires |a| % 3 == 0
    ensures Expand(a + b) == Expand(a) + Expand(b)
  {
    hide Group;
    if a == [] {
      assert a + b == b;
    } else if |a + b| == 3 {
      assert a + b == a && b == [];
    } else {
      assert (a + b)[..3] == a[..3] && (a + b)[3..] == a[3..] + b;
      ExpandAppend(a[3..], b);
      if |a| == 3 {
        assert a[..3] == a && a[3..] == [];
      }
    }
  }

  // ---------------------------------------------------------------- the checksum

  /** The register after the whole descriptor: expand first, then fold. */
  function Absorbed(descriptor: string): bv64
    requires Valid(descriptor)
  {
    Fold(CHECKSUM_FINAL_XOR_VALUE, Expand(Positions(descriptor)))
  }

  function Finish(c: bv64): bv64 {
    Xor(Fold(c, Zeros(8)), CHECKSUM_FINAL_XOR_VALUE)
  }

  function OutputSymbols(v: bv64): (symbols: seq<bv64>)
    ensures |symbols| == 8
  {
    [Low(v >> 35), Low(v >> 30), Low(v >> 25), Low(v >> 20), Low(v >> 15), Low(v >> 10), Low(v >> 5), Low(v)]
  }

  lemma OutputSymbolsFiveBit(v: bv64)
    ensures FiveBit(OutputSymbols(v))
  {
    hide Low;
    LowHigh(v >> 35, 0);
    LowHigh(v >> 30, 0);
    LowHigh(v >> 25, 0);
    LowHigh(v >> 20, 0);
    LowHigh(v >> 15, 0);
    LowHigh(v >> 10, 0);
    LowHigh(v >> 5, 0);
    LowHigh(v, 0);
  }

  lemma PushDigits(v: bv64)
    requires v < REGISTER_LIMIT
    ensures Push(Push(Push(Push(Push(Push(Push(Push(0, Low(v >> 35)), Low(v >> 30)), Low(v >> 25)), Low(v >> 20)),
                                Low(v >> 15)), Low(v >> 10)), Low(v >> 5)), Low(v)) == v
  {
  }

  lemma PackOne(d: bv64, a: bv64, rest: seq<bv64>)
    ensures Pack(d, [a] + rest) == Pack(Push(d, a), rest)
  {
    hide Push;
    assert ([a] + rest)[1..] == rest;
  }

  lemma PackFour(d: bv64, a: bv64, b: bv64, c: bv64, e: bv64, rest: seq<bv64>)
    ensures Pack(d, [a, b, c, e] + rest) == Pack(Push(Push(Push(Push(d, a), b), c), e), rest)
  {
    hide Push, Pack;
    assert [a, b, c, e] + rest == [a] + ([b] + ([c] + ([e] + rest)));
    PackOne(d, a, [b] + ([c] + ([e] + rest)));
    PackOne(Push(d, a), b, [c] + ([e] + rest));
    PackOne(Push(Push(d, a), b), c, [e] + rest);
    PackOne(Push(Push(Push(d, a), b), c), e, rest);
  }

  /** The eight output symbols determine the 40-bit value they were cut from. */
  lemma PackOutputSymbols(v: bv64)
    requires v < REGISTER_LIMIT
    ensures Pack(0, OutputSymbols(v)) == v
  {
    hide Push, Low;
    var tail := [Low(v >> 15), Low(v >> 10), Low(v >> 5), Low(v)];
    assert OutputSymbols(v) == [Low(v >> 35), Low(v >> 30), Low(v >> 25), Low(v >> 20)] + tail;
    PackFour(0, Low(v >> 35), Low(v >> 30), Low(v >> 25), Low(v >> 20), tail);
    assert tail == tail + [];
    PackFour(Push(Push(Push(Push(0, Low(v >> 35)), Low(v >> 30)), Low(v >> 25)), Low(v >> 20)),
             Low(v >> 15), Low(v >> 10), Low(v >> 5), Low(v), []);
    PushDigits(v);
  }

  function Render(symbols: seq<bv64>): (text: string)
    requires FiveBit(symbols)
    ensures |text| == |symbols|
  {
    assert |CHECKSUM_CHARSET| == 32;
    seq(|symbols|, i requires 0 <= i < |symbols| => CHECKSUM_CHARSET[symbols[i] as nat])
  }

  /** Each symbol is shown as the character of that number, one after the other. */
  lemma RenderAt(symbols: seq<bv64>, i: nat)
    requires FiveBit(symbols) && i < |symbols|
    ensures |CHECKSUM_CHARSET| == 32 && symbols[i] as nat < 32 && Render(symbols)[i] == CHECKSUM_CHARSET[symbols[i] as nat]
  {
  }

  lemma CharsetDistinct(i: nat, j: nat)
    requires i < j < |CHECKSUM_CHARSET|
    ensures CHECKSUM_CHARSET[i] != CHECKSUM_CHARSET[j]
  {
  }

  lemma RenderInjective(a: seq<bv64>, b: seq<bv64>)
    requires FiveBit(a) && FiveBit(b) && Render(a) == Render(b)
    ensures a == b
  {
    assert |a| == |Render(a)| == |b|;
    forall i | 0 <= i < |a|
      ensures a[i] == b[i]
    {
      var m, n := a[i] as nat, b[i] as nat;
      assert CHECKSUM_CHARSET[m] == Render(a)[i] == Render(b)[i] == CHECKSUM_CHARSET[n];
      if m < n {
        CharsetDistinct(m, n);
      } else if n < m {
        CharsetDistinct(n, m);
      }
    }
  }

  /** The two-phase form of BIP 380. */
  function Checksum(descriptor: string): string
    requires Valid(descriptor)
  {
    OutputSymbolsFiveBit(Finish(Absorbed(descriptor)));
    Render(OutputSymbols(Finish(Absorbed(descriptor))))
  }

  lemma AbsorbedBounded(descriptor: string)
    requires Valid(descriptor)
    ensures Absorbed(descriptor) < REGISTER_LIMIT && Finish(Absorbed(descriptor)) < REGISTER_LIMIT
  {
    hide Fold, Xor, Expand, Zeros;
    ExpandFiveBit(Positions(descriptor));
    FoldBounded(CHECKSUM_FINAL_XOR_VALUE, Expand(Positions(descriptor)));
    ZerosFiveBit(8);
    FoldBounded(Absorbed(descriptor), Zeros(8));
    XorBounded(Fold(Absorbed(descriptor), Zeros(8)), CHECKSUM_FINAL_XOR_VALUE);
  }

  lemma {:induction false} ZerosFiveBit(n: nat)
    ensures FiveBit(Zeros(n))
  {
    if n > 0 {
      ZerosFiveBit(n - 1);
    }
  }

  /** Feeding the eight output symbols instead of eight zeros leaves the residue 1. */
  lemma ResidueIsOne(descriptor: string)
    requires Valid(descriptor)
    ensures Fold(Absorbed(descriptor), OutputSymbols(Finish(Absorbed(descriptor)))) == CHECKSUM_FINAL_XOR_VALUE
  {
    hide Fold, Xor, OutputSymbols, Zeros, Absorbed, Digits;
    var c := Absorbed(descriptor);
    var zeroed, v := Fold(c, Zeros(8)), Finish(c);
    var symbols := OutputSymbols(v);
    AbsorbedBounded(descriptor);
    OutputSymbolsFiveBit(v);
    XorUnit(c);
    assert Xor(c, c) < Digits(0) by { SmallestDigits(); }
    WindowDifference(c, c, symbols, 0);
    PackOutputSymbols(v);
    CancelZeroed(Fold(c, symbols), zeroed);
  }

  lemma SmallestDigits()
    ensures 0 < Digits(0)
  {
  }

  lemma CancelZeroed(x: bv64, z: bv64)
    ensures Xor(x, z) == Xor(z, CHECKSUM_FINAL_XOR_VALUE) ==> x == CHECKSUM_FINAL_XOR_VALUE
  {
  }

  // ---------------------------------------------------------------- error detection

  /** Expansion goes group by group, so it splits at a group boundary. */
  lemma ExpandWindow(p: seq<bv64>, lo: nat, hi: nat)
    requires lo <= hi <= |p| && lo % 3 == 0 && (hi == |p| || hi % 3 == 0)
    ensures Expand(p) == Expand(p[..lo]) + (Expand(p[lo..hi]) + Expand(p[hi..]))
  {
    hide Expand;
    var before, window, after := p[..lo], p[lo..hi], p[hi..];
    assert p == before + (window + after);
    ExpandAppend(before, window + after);
    if hi % 3 == 0 {
      assert |window| % 3 == 0;
      ExpandAppend(window, after);
    } else {
      ExpandLast(window, after);
    }
  }

  lemma ExpandLast(window: seq<bv64>, after: seq<bv64>)
    requires after == []
    ensures Expand(window + after) == Expand(window) + Expand(after)
  {
    hide Expand;
    assert window + after == window;
    ExpandEmpty();
    assert Expand(window) + [] == Expand(window);
  }

  lemma FoldWindow(start: bv64, before: seq<bv64>, window: seq<bv64>, after: seq<bv64>)
    ensures Fold(start, before + (window + after)) == Fold(Fold(Fold(start, before), window), after)
  {
    hide Fold;
    FoldAppend(start, before, window + after);
    FoldAppend(Fold(start, before), window, after);
  }

  lemma AbsorbedWindow(p: seq<bv64>, lo: nat, hi: nat)
    requires lo <= hi <= |p| && lo % 3 == 0 && (hi == |p| || hi % 3 == 0)
    ensures Fold(CHECKSUM_FINAL_XOR_VALUE, Expand(p))
         == Fold(Fold(Fold(CHECKSUM_FINAL_XOR_VALUE, Expand(p[..lo])), Expand(p[lo..hi])), Expand(p[hi..]))
  {
    hide Fold, Expand;
    ExpandWindow(p, lo, hi);
    FoldWindow(CHECKSUM_FINAL_XOR_VALUE, Expand(p[..lo]), Expand(p[lo..hi]), Expand(p[hi..]));
  }

  lemma ExpandEmpty()
    ensures Expand([]) == []
  {
  }

  /** A register that differs after the descriptor differs in its rendered checksum. */
  lemma RenderedDiffers(d: string, e: string)
    requires Valid(d) && Valid(e) && Checksum(d) == Checksum(e)
    ensures Absorbed(d) == Absorbed(e)
  {
    hide Fold, Xor, OutputSymbols, Zeros, Absorbed, Render;
    var v, w := Finish(Absorbed(d)), Finish(Absorbed(e));
    AbsorbedBounded(d);
    AbsorbedBounded(e);
    OutputSymbolsFiveBit(v);
    OutputSymbolsFiveBit(w);
    RenderInjective(OutputSymbols(v), OutputSymbols(w));
    PackOutputSymbols(v);
    PackOutputSymbols(w);
    XorRightInjective(Fold(Absorbed(d), Zeros(8)), Fold(Absorbed(e), Zeros(8)), CHECKSUM_FINAL_XOR_VALUE);
    ZerosFiveBit(8);
    FoldInjective(Absorbed(d), Absorbed(e), Zeros(8));
  }

  lemma XorRightInjective(x: bv64, y: bv64, z: bv64)
    ensures Xor(x, z) == Xor(y, z) ==> x == y
  {
  }

  /**
   Two descriptors of equal length that differ, but only inside one pair of neighbouring
   groups (six characters), never share a checksum.
   */
  lemma BurstDetected(d: string, e: string, group: nat)
    requires Valid(d) && Valid(e) && |d| == |e| && d != e
    requires forall i :: 0 <= i < |d| && !(3 * group <= i < 3 * group + 6) ==> d[i] == e[i]
    ensures Checksum(d) != Checksum(e)
  {
    hide Absorbed, Checksum, Known;
    var lo := 3 * group;
    var i :| 0 <= i < |d| && d[i] != e[i];
    if Checksum(d) == Checksum(e) {
      var hi := if lo + 6 <= |d| then lo + 6 else |d|;
      RenderedDiffers(d, e);
      SameAbsorbed(d, e, lo, hi);
    }
  }

  lemma SameAbsorbed(d: string, e: string, lo: nat, hi: nat)
    requires Valid(d) && Valid(e) && |d| == |e| && Absorbed(d) == Absorbed(e)
    requires lo <= hi <= |d| && hi <= lo + 6 && lo % 3 == 0 && (hi == |d| || hi % 3 == 0)
    requires forall i :: 0 <= i < |d| && !(lo <= i < hi) ==> d[i] == e[i]
    ensures d == e
  {
    hide Fold, Expand;
    var p, q := Positions(d), Positions(e);
    forall i | 0 <= i < |p| && !(lo <= i < hi)
      ensures p[i] == q[i]
    {
    }
    assert p[..lo] == q[..lo] && p[hi..] == q[hi..];
    SameWindow(p, q, lo, hi);
    SamePositions(d, e, lo, hi);
  }

  lemma SameWindow(p: seq<bv64>, q: seq<bv64>, lo: nat, hi: nat)
    requires InAlphabet(p) && InAlphabet(q) && |p| == |q|
    requires lo <= hi <= |p| && hi <= lo + 6 && lo % 3 == 0 && (hi == |p| || hi % 3 == 0)
    requires p[..lo] == q[..lo] && p[hi..] == q[hi..]
    requires Fold(CHECKSUM_FINAL_XOR_VALUE, Expand(p)) == Fold(CHECKSUM_FINAL_XOR_VALUE, Expand(q))
    ensures p[lo..hi] == q[lo..hi]
  {
    hide Fold, Xor, Expand, Digits;
    AbsorbedWindow(p, lo, hi);
    AbsorbedWindow(q, lo, hi);
    var c := Fold(CHECKSUM_FINAL_XOR_VALUE, Expand(p[..lo]));
    var a, b := Expand(p[lo..hi]), Expand(q[lo..hi]);
    ExpandFiveBit(p[..lo]);
    ExpandFiveBit(p[lo..hi]);
    ExpandFiveBit(q[lo..hi]);
    ExpandFiveBit(p[hi..]);
    FoldBounded(CHECKSUM_FINAL_XOR_VALUE, Expand(p[..lo]));
    FoldBounded(c, a);
    FoldBounded(c, b);
    FoldInjective(Fold(c, a), Fold(c, b), Expand(p[hi..]));
    ExpandInjective(p[lo..hi], q[lo..hi]);
    XorUnit(c);
    SmallestDigits();
    WindowInjective(c, c, a, b, 0);
  }

  lemma SamePositions(d: string, e: string, lo: nat, hi: nat)
    requires Valid(d) && Valid(e) && |d| == |e| && lo <= hi <= |d|
    requires forall i :: 0 <= i < |d| && !(lo <= i < hi) ==> d[i] == e[i]
    requires Positions(d)[lo..hi] == Positions(e)[lo..hi]
    ensures d == e
  {
    forall i | lo <= i < hi
      ensures d[i] == e[i]
    {
      assert Positions(d)[lo..hi][i - lo] == Positions(d)[i] && Positions(e)[lo..hi][i - lo] == Positions(e)[i];
      PositionInjective(d[i], e[i]);
    }
  }

  /** In particular, any change of up to four neighbouring characters is detected. */
  lemma FourNeighboursDetected(d: string, e: string, start: nat)
    requires Valid(d) && Valid(e) && |d| == |e| && d != e
    requires forall i :: 0 <= i < |d| && !(start <= i < start + 4) ==> d[i] == e[i]
    ensures Checksum(d) != Checksum(e)
  {
    BurstDetected(d, e, start / 3);
  }

  // ---------------------------------------------------------------- the streaming loop

  /** The register inside a group: whole groups expanded, then the low parts of the group being read. */
  ghost function Streamed(ps: seq<bv64>, start: nat): bv64
    requires start <= |ps|
  {
    Fold(CHECKSUM_FINAL_XOR_VALUE, Expand(ps[..start]) + Lows(ps[start..]))
  }

  lemma StreamBoundary(ps: seq<bv64>)
    ensures Streamed(ps, |ps|) == Fold(CHECKSUM_FINAL_XOR_VALUE, Expand(ps)) && Highs(ps[|ps|..]) == 0
  {
    assert ps[..|ps|] == ps && Lows(ps[|ps|..]) == [];
    assert Expand(ps) + [] == Expand(ps);
  }

  lemma StreamStart()
    ensures Streamed([], 0) == CHECKSUM_FINAL_XOR_VALUE && Highs([]) == 0
  {
    StreamBoundary([]);
  }

  lemma FoldOne(c: bv64, v: bv64)
    ensures Fold(c, [v]) == Step(c, v)
  {
    hide Step;
    assert [v][1..] == [];
  }

  lemma StreamCharacter(ps: seq<bv64>, start: nat, p: bv64)
    requires start <= |ps|
    ensures Streamed(ps + [p], start) == Step(Streamed(ps, start), Low(p))
    ensures Highs((ps + [p])[start..]) == Accumulate(Highs(ps[start..]), p)
  {
    hide Fold, Step, Expand, Low, Accumulate;
    var next := ps + [p];
    assert next[..start] == ps[..start] && next[start..] == ps[start..] + [p];
    assert Lows(next[start..]) == Lows(ps[start..]) + [Low(p)];
    assert Expand(ps[..start]) + Lows(next[start..]) == (Expand(ps[..start]) + Lows(ps[start..])) + [Low(p)];
    FoldAppend(CHECKSUM_FINAL_XOR_VALUE, Expand(ps[..start]) + Lows(ps[start..]), [Low(p)]);
    FoldOne(Streamed(ps, start), Low(p));
    assert next[start..][..|next[start..]| - 1] == ps[start..];
  }

  lemma StreamGroup(ps: seq<bv64>, start: nat)
    requires start < |ps| <= start + 3 && start % 3 == 0
    ensures Step(Streamed(ps, start), Highs(ps[start..])) == Streamed(ps, |ps|)
    ensures Streamed(ps, |ps|) == Fold(CHECKSUM_FINAL_XOR_VALUE, Expand(ps)) && Highs(ps[|ps|..]) == 0
  {
    hide Fold, Step, Highs, Lows;
    var group := ps[start..];
    assert ps == ps[..start] + group;
    ExpandAppend(ps[..start], group);
    assert Expand(ps) == (Expand(ps[..start]) + Lows(group)) + [Highs(group)];
    FoldAppend(CHECKSUM_FINAL_XOR_VALUE, Expand(ps[..start]) + Lows(group), [Highs(group)]);
    FoldOne(Streamed(ps, start), Highs(group));
    StreamBoundary(ps);
  }

  lemma StreamZero(c: bv64, k: nat)
    ensures Step(Fold(c, Zeros(k)), 0) == Fold(c, Zeros(k + 1))
  {
    hide Fold, Step;
    ZerosAppend(k);
    FoldAppend(c, Zeros(k), [0]);
    FoldOne(Fold(c, Zeros(k)), 0);
  }

  lemma {:induction false} ZerosAppend(k: nat)
    ensures Zeros(k + 1) == Zeros(k) + [0]
  {
    if k > 0 {
      ZerosAppend(k - 1);
    }
  }

  lemma NoZeros(c: bv64)
    ensures Fold(c, Zeros(0)) == c
  {
  }

  /** The source's single pass over the text computes the two-phase checksum, and refuses exactly the invalid texts. */
  method ComputeChecksum(descriptor: string) returns (r: Result<string>)
    ensures r.Ok? <==> Valid(descriptor)
    ensures r.Ok? ==> r.value == Checksum(descriptor)
  {
    hide Fold, Step, Xor, Expand, Position, Low, High, Accumulate, Streamed, Highs, OutputSymbols, Render, Zeros, Known, FindPosition;
    var checksum := CHECKSUM_FINAL_XOR_VALUE;
    var accumulated: bv64 := 0;
    var groupCount := 0;
    ghost var ps: seq<bv64> := [];
    ghost var start := 0;
    StreamStart();
    for i := 0 to |descriptor|
      invariant Valid(descriptor[..i]) && ps == Positions(descriptor[..i])
      invariant start + groupCount == i && start % 3 == 0 && groupCount < 3
      invariant checksum == Streamed(ps, start)
      invariant accumulated == Highs(ps[start..])
    {
      var found := FindPosition(descriptor[i]);
      if found.None? {
        return Err("Descriptor invalid");
      }
      var position := found.value;
      assert descriptor[..i + 1] == descriptor[..i] + [descriptor[i]];
      ghost var before := ps;
      ps := ps + [position];
      checksum := PolynomialModulus(checksum, Low(position));
      accumulated := Accumulate(accumulated, position);
      groupCount := groupCount + 1;
      StreamCharacter(before, start, position);
      if groupCount == 3 {
        checksum := PolynomialModulus(checksum, accumulated);
        accumulated := 0;
        groupCount := 0;
        StreamGroup(ps, start);
        start := i + 1;
      }
    }
    assert descriptor[..|descriptor|] == descriptor;
    if groupCount > 0 {
      checksum := PolynomialModulus(checksum, accumulated);
      StreamGroup(ps, start);
    } else {
      StreamBoundary(ps);
    }
    NoZeros(checksum);
    for k := 0 to 8
      invariant checksum == Fold(Absorbed(descriptor), Zeros(k))
    {
      checksum := PolynomialModulus(checksum, 0);
      StreamZero(Absorbed(descriptor), k);
    }
    checksum := Xor(checksum, CHECKSUM_FINAL_XOR_VALUE);
    OutputSymbolsFiveBit(checksum);
    r := Ok(Render(OutputSymbols(checksum)));
  }

  // ---------------------------------------------------------------- a known answer

  lemma RankInjective(c: char, d: char)
    requires Rank(c) == Rank(d) < 95
    ensures c == d
  {
  }

  /** A character of the alphabet is fed as its number. */
  lemma PositionOf(c: char)
    requires Rank(c) < 95
    ensures Known(c) && Position(c) == IndexBits(Rank(c))
  {
    hide IndexBits, Position, Rank, Known;
    CharsetLength();
    var d := INPUT_CHARSET[Rank(c)];
    RankAt(Rank(c));
    RankInjective(c, d);
    PositionAt(Rank(c), c);
  }

  const EXAMPLE: string := "raw(deadbeef)"
  const EXAMPLE_POSITIONS: seq<bv64> := [73, 18, 78, 10, 21, 22, 18, 21, 19, 22, 22, 23, 11]
  const EXAMPLE_SYMBOLS: seq<bv64> := [9, 18, 14, 20, 10, 21, 22, 0, 18, 21, 19, 0, 22, 22, 23, 0, 11, 0]

  lemma ExampleRanks()
    ensures Rank('r') == 73 && Rank('a') == 18 && Rank('w') == 78 && Rank('(') == 10 && Rank('d') == 21 && Rank('e') == 22
    ensures Rank('b') == 19 && Rank('f') == 23 && Rank(')') == 11
  {
  }

  lemma ExampleBits()
    ensures IndexBits(73) == 73 && IndexBits(18) == 18 && IndexBits(78) == 78 && IndexBits(10) == 10 && IndexBits(21) == 21
    ensures IndexBits(22) == 22 && IndexBits(19) == 19 && IndexBits(23) == 23 && IndexBits(11) == 11
  {
  }

  lemma ExamplePositions()
    ensures Valid(EXAMPLE) && Positions(EXAMPLE) == EXAMPLE_POSITIONS
  {
    hide Position, Known, Rank, IndexBits;
    ExampleRanks();
    ExampleBits();
    PositionOf('r');
    PositionOf('a');
    PositionOf('w');
    PositionOf('(');
    PositionOf('d');
    PositionOf('e');
    PositionOf('b');
    PositionOf('f');
    PositionOf(')');
  }

  lemma GroupOf(a: bv64, b: bv64, c: bv64)
    ensures Group([a, b, c]) == [Low(a), Low(b), Low(c), Accumulate(Accumulate(Accumulate(0, a), b), c)]
    ensures Group([a]) == [Low(a), Accumulate(0, a)]
  {
    hide Low, Accumulate;
    HighsByCases([a, b, c]);
    HighsByCases([a]);
  }

  lemma ExampleGroups()
    ensures Expand([73, 18, 78]) == [9, 18, 14, 20] && Expand([10, 21, 22]) == [10, 21, 22, 0] && Expand([18, 21, 19]) == [18, 21, 19, 0]
    ensures Expand([22, 22, 23]) == [22, 22, 23, 0] && Expand([11]) == [11, 0]
  {
    hide Low, Accumulate, Group, Expand;
    ExpandGroup([73, 18, 78]);
    ExpandGroup([10, 21, 22]);
    ExpandGroup([18, 21, 19]);
    ExpandGroup([22, 22, 23]);
    ExpandGroup([11]);
    GroupOf(73, 18, 78);
    GroupOf(10, 21, 22);
    GroupOf(18, 21, 19);
    GroupOf(22, 22, 23);
    GroupOf(11, 0, 0);
    ExampleDigits();
  }

  lemma ExpandFive(a: seq<bv64>, b: seq<bv64>, c: seq<bv64>, d: seq<bv64>, e: seq<bv64>)
    requires |a| == |b| == |c| == |d| == 3
    ensures Expand(a + (b + (c + (d + e)))) == Expand(a) + (Expand(b) + (Expand(c) + (Expand(d) + Expand(e))))
  {
    hide Expand;
    ExpandAppend(a, b + (c + (d + e)));
    ExpandAppend(b, c + (d + e));
    ExpandAppend(c, d + e);
    ExpandAppend(d, e);
  }

  /** Groups of three characters, each followed by its high parts. */
  lemma ExampleSymbols()
    ensures Expand(EXAMPLE_POSITIONS) == EXAMPLE_SYMBOLS
  {
    hide Expand;
    var a: seq<bv64>, b: seq<bv64>, c: seq<bv64>, d: seq<bv64>, e: seq<bv64> := [73, 18, 78], [10, 21, 22], [18, 21, 19], [22, 22, 23], [11];
    assert EXAMPLE_POSITIONS == a + (b + (c + (d + e)));
    ExpandFive(a, b, c, d, e);
    ExampleGroups();
  }

  lemma ExpandGroup(ps: seq<bv64>)
    requires 1 <= |ps| <= 3
    ensures Expand(ps) == Group(ps)
  {
  }

  lemma ExampleDigits()
    ensures Low(10) == 10
    ensures Low(11) == 11
    ensures Low(18) == 18
    ensures Low(19) == 19
    ensures Low(21) == 21
    ensures Low(22) == 22
    ensures Low(23) == 23
    ensures Low(73) == 9
    ensures Low(78) == 14
    ensures Accumulate(Accumulate(Accumulate(0, 73), 18), 78) == 20
    ensures Accumulate(Accumulate(Accumulate(0, 10), 21), 22) == 0
    ensures Accumulate(Accumulate(Accumulate(0, 18), 21), 19) == 0
    ensures Accumulate(Accumulate(Accumulate(0, 22), 22), 23) == 0
    ensures Accumulate(0, 11) == 0
  {
  }

  lemma ExampleSteps0()
    ensures Step(0x1, 9) == 0x29
    ensures Step(0x29, 18) == 0x532
    ensures Step(0x532, 14) == 0xa64e
    ensures Step(0xa64e, 20) == 0x14c9d4
    ensures Step(0x14c9d4, 10) == 0x2993a8a
    ensures Step(0x2993a8a, 21) == 0x53275155
    ensures Step(0x53275155, 22) == 0xa64ea2ab6
    ensures Step(0xa64ea2ab6, 0) == 0xb943a04f49
    ensures Step(0xb943a04f49, 18) == 0xbb1544f79
  {
  }

  lemma ExampleSteps1()
    ensures Step(0xbb1544f79, 21) == 0x83f46cf6bc
    ensures Step(0x83f46cf6bc, 19) == 0x1ac0fcb86e
    ensures Step(0x1ac0fcb86e, 0) == 0x43cb8275b
    ensures Step(0x43cb8275b, 22) == 0x879704eb76
    ensures Step(0x879704eb76, 22) == 0x96adff012b
    ensures Step(0x96adff012b, 23) == 0x180f487998
    ensures Step(0x180f487998, 0) == 0x5dca20199b
    ensures Step(0x5dca20199b, 11) == 0xd2619d7e8a
    ensures Step(0xd2619d7e8a, 0) == 0xb685b6ead5
  {
  }

  lemma ExampleSteps2()
    ensures Step(0xb685b6ead5, 0) == 0x6ad65e562
    ensures Step(0x6ad65e562, 0) == 0xd5acbcac40
    ensures Step(0xd5acbcac40, 0) == 0x4f218cb395
    ensures Step(0x4f218cb395, 0) == 0x26e9c20c53
    ensures Step(0x26e9c20c53, 0) == 0xc69351694d
    ensures Step(0xc69351694d, 0) == 0x8121fe2127
    ensures Step(0x8121fe2127, 0) == 0x4072a64b1d
    ensures Step(0x4072a64b1d, 0) == 0x39527804da
  {
  }

  lemma FeedOne(c: bv64, v: bv64, rest: seq<bv64>, next: bv64)
    requires Step(c, v) == next
    ensures Fold(c, [v] + rest) == Fold(next, rest)
  {
    hide Step;
    assert ([v] + rest)[1..] == rest;
  }

  lemma FeedThree(c: bv64, u: bv64, v: bv64, w: bv64, rest: seq<bv64>, x: bv64, y: bv64, z: bv64)
    requires Step(c, u) == x && Step(x, v) == y && Step(y, w) == z
    ensures Fold(c, [u, v, w] + rest) == Fold(z, rest)
  {
    hide Step, Fold;
    assert [u, v, w] + rest == [u] + ([v] + ([w] + rest));
    FeedOne(c, u, [v] + ([w] + rest), x);
    FeedOne(x, v, [w] + rest, y);
    FeedOne(y, w, rest, z);
  }

  lemma NothingFed(c: bv64)
    ensures Fold(c, []) == c
  {
  }

  lemma ExampleFirstHalf(rest: seq<bv64>)
    ensures Fold(0x1, [9, 18, 14, 20, 10, 21, 22, 0, 18] + rest) == Fold(0xbb1544f79, rest)
  {
    hide Fold, Step;
    ExampleSteps0();
    var third: seq<bv64> := [22, 0, 18] + rest;
    var second: seq<bv64> := [20, 10, 21] + third;
    var whole: seq<bv64> := [9, 18, 14, 20, 10, 21, 22, 0, 18];
    assert whole + rest == [9, 18, 14] + second;
    FeedThree(0x1, 9, 18, 14, second, 0x29, 0x532, 0xa64e);
    FeedThree(0xa64e, 20, 10, 21, third, 0x14c9d4, 0x2993a8a, 0x53275155);
    FeedThree(0x53275155, 22, 0, 18, rest, 0xa64ea2ab6, 0xb943a04f49, 0xbb1544f79);
  }

  lemma ExampleSecondHalf(rest: seq<bv64>)
    ensures Fold(0xbb1544f79, [21, 19, 0, 22, 22, 23, 0, 11, 0] + rest) == Fold(0xb685b6ead5, rest)
  {
    hide Fold, Step;
    ExampleSteps1();
    var third: seq<bv64> := [0, 11, 0] + rest;
    var second: seq<bv64> := [22, 22, 23] + third;
    var whole: seq<bv64> := [21, 19, 0, 22, 22, 23, 0, 11, 0];
    assert whole + rest == [21, 19, 0] + second;
    FeedThree(0xbb1544f79, 21, 19, 0, second, 0x83f46cf6bc, 0x1ac0fcb86e, 0x43cb8275b);
    FeedThree(0x43cb8275b, 22, 22, 23, third, 0x879704eb76, 0x96adff012b, 0x180f487998);
    FeedThree(0x180f487998, 0, 11, 0, rest, 0x5dca20199b, 0xd2619d7e8a, 0xb685b6ead5);
  }

  lemma ExampleZeros()
    ensures Fold(0xb685b6ead5, Zeros(8)) == 0x39527804da
  {
    hide Fold, Step;
    ExampleSteps2();
    EightZeros();
    var last: seq<bv64> := [0, 0];
    var second: seq<bv64> := [0, 0, 0] + last;
    assert Zeros(8) == [0, 0, 0] + second;
    FeedThree(0xb685b6ead5, 0, 0, 0, second, 0x6ad65e562, 0xd5acbcac40, 0x4f218cb395);
    FeedThree(0x4f218cb395, 0, 0, 0, last, 0x26e9c20c53, 0xc69351694d, 0x8121fe2127);
    assert last == [0] + [0] && [0 as bv64] == [0] + [];
    FeedOne(0x8121fe2127, 0, [0], 0x4072a64b1d);
    FeedOne(0x4072a64b1d, 0, [], 0x39527804da);
    NothingFed(0x39527804da);
  }

  lemma EightZeros()
    ensures Zeros(8) == [0, 0, 0, 0, 0, 0, 0, 0]
  {
    assert Zeros(2) == [0, 0];
    assert Zeros(4) == [0, 0, 0, 0];
    assert Zeros(6) == [0, 0, 0, 0, 0, 0];
  }

  lemma ExampleOutput()
    ensures Xor(0x39527804da, CHECKSUM_FINAL_XOR_VALUE) == 0x39527804db && OutputSymbols(0x39527804db) == [7, 5, 9, 7, 16, 1, 6, 27]
  {
  }

  lemma ExampleText(symbols: seq<bv64>)
    requires symbols == [7, 5, 9, 7, 16, 1, 6, 27] && FiveBit(symbols)
    ensures Render(symbols) == "89f8spxm"
  {
  }

  /** The example of BIP 380: alphabets, groups, register and rendering together. */
  lemma KnownAnswer()
    ensures Valid(EXAMPLE) && Checksum(EXAMPLE) == "89f8spxm"
  {
    hide Fold, Step, Expand, Position, Known, Positions, OutputSymbols, Zeros, Render, Xor, Valid;
    ExamplePositions();
    ExampleSymbols();
    var first: seq<bv64> := [9, 18, 14, 20, 10, 21, 22, 0, 18];
    var second: seq<bv64> := [21, 19, 0, 22, 22, 23, 0, 11, 0];
    assert EXAMPLE_SYMBOLS == first + (second + []);
    ExampleFirstHalf(second + []);
    ExampleSecondHalf([]);
    NothingFed(0xb685b6ead5);
    ExampleZeros();
    ExampleOutput();
    OutputSymbolsFiveBit(0x39527804db);
    ExampleText(OutputSymbols(0x39527804db));
  }
}
