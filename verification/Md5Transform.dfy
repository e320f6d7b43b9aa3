/** The unrolled transform (src/lsapilib.c:4262-4358) against the rounds of RFC 1321. */
module Md5Transform {
  import opened Md5Spec

  function F1(x: Word, y: Word, z: Word): Word {
    z ^ (x & (y ^ z))
  }

  function F2(x: Word, y: Word, z: Word): Word {
    F1(z, x, y)
  }

  function F3(x: Word, y: Word, z: Word): Word {
    x ^ y ^ z
  }

  function F4(x: Word, y: Word, z: Word): Word {
    y ^ (x | !z)
  }

  /** MD5STEP once f(x, y, z) is known: w += f + data; rotate w left by s; w += x. */
  function Md5Step(f: Word, w: Word, x: Word, data: Word, s: nat): Word
    requires 0 < s < 32
  {
    RotateLeft(w + (f + data), s) + x
  }

  lemma Choose(x: Word, y: Word, z: Word)
    ensures z ^ (x & (y ^ z)) == (x & y) | (!x & z)
  {
  }

  lemma ChooseLast(x: Word, y: Word, z: Word)
    ensures y ^ (z & (x ^ y)) == (x & z) | (y & !z)
  {
  }

  lemma F1IsF(x: Word, y: Word, z: Word)
    ensures F1(x, y, z) == Aux(0, x, y, z)
  {
    Choose(x, y, z);
  }

  lemma F2IsG(x: Word, y: Word, z: Word)
    ensures F2(x, y, z) == Aux(1, x, y, z)
  {
    ChooseLast(x, y, z);
  }

  lemma F3IsH(x: Word, y: Word, z: Word)
    ensures F3(x, y, z) == Aux(2, x, y, z)
  {
  }

  lemma F4IsI(x: Word, y: Word, z: Word)
    ensures F4(x, y, z) == Aux(3, x, y, z)
  {
  }

  lemma StepIsOp(f: Word, w: Word, x: Word, m: Word, t: Word, s: nat)
    requires 0 < s < 32
    ensures Md5Step(f, w, x, m + t, s) == x + RotateLeft(w + f + m + t, s)
  {
    hide RotateLeft;
  }

  /** The macro argument f of the code's steps, by round. */
  function Macro(round: nat, x: Word, y: Word, z: Word): (f: Word)
    requires round < 4
  {
    if round == 0 then F1(x, y, z)
    else if round == 1 then F2(x, y, z)
    else if round == 2 then F3(x, y, z)
    else F4(x, y, z)
  }

  /** The rewritten functions are those of the standard, on every input. */
  lemma MacroIsAux(round: nat, x: Word, y: Word, z: Word)
    requires round < 4
    ensures Macro(round, x, y, z) == Aux(round, x, y, z)
  {
    hide F1, F2, F3, F4, Aux;
    F1IsF(x, y, z);
    F2IsG(x, y, z);
    F3IsH(x, y, z);
    F4IsI(x, y, z);
  }

  /** One step of the code, whose data argument is in[k] + t. */
  function CodeStep(round: nat, w: Word, x: Word, y: Word, z: Word, m: Word, t: Word, s: nat): (r: Word)
    requires round < 4 && 0 < s < 32
  {
    Md5Step(Macro(round, x, y, z), w, x, m + t, s)
  }

  lemma CodeStepIsOp(round: nat, w: Word, x: Word, y: Word, z: Word, m: Word, t: Word, s: nat)
    requires round < 4 && 0 < s < 32
    ensures CodeStep(round, w, x, y, z, m, t, s) == Op(round, w, x, y, z, m, t, s)
  {
    MacroIsAux(round, x, y, z);
    StepIsOp(Aux(round, x, y, z), w, x, m, t, s);
    hide Md5Step, Macro, RotateLeft, Aux;
  }

  lemma OneStep(i: nat, r: Abcd, x: seq<Word>)
    requires i < 64 && |x| == 16
    ensures var p := Operations(i, r, x);
      Operations(i + 1, r, x) == Abcd(p.d, CodeStep(i / 16, p.a, p.b, p.c, p.d, x[K(i)], T(i), S(i)), p.b, p.c)
  {
    var p := Operations(i, r, x);
    hide CodeStep, Op, T, K, S;
    CodeStepIsOp(i / 16, p.a, p.b, p.c, p.d, x[K(i)], T(i), S(i));
  }

  /** Four steps are four operations, and bring the registers back to their names. */
  lemma FourSteps(i: nat, r: Abcd, x: seq<Word>)
    requires i <= 60 && i % 4 == 0 && |x| == 16
    ensures var p := Operations(i, r, x);
      var a := CodeStep(i / 16, p.a, p.b, p.c, p.d, x[K(i)], T(i), S(i));
      var d := CodeStep(i / 16, p.d, a, p.b, p.c, x[K(i + 1)], T(i + 1), S(i + 1));
      var c := CodeStep(i / 16, p.c, d, a, p.b, x[K(i + 2)], T(i + 2), S(i + 2));
      var b := CodeStep(i / 16, p.b, c, d, a, x[K(i + 3)], T(i + 3), S(i + 3));
      Operations(i + 4, r, x) == Abcd(a, b, c, d)
  {
    hide CodeStep, Operations, T, K, S;
    assert i / 16 == (i + 1) / 16 == (i + 2) / 16 == (i + 3) / 16;
    OneStep(i, r, x);
    OneStep(i + 1, r, x);
    OneStep(i + 2, r, x);
    OneStep(i + 3, r, x);
  }

  lemma Table1()
    ensures T(0) == 0xd76aa478
    ensures T(1) == 0xe8c7b756
    ensures T(2) == 0x242070db
    ensures T(3) == 0xc1bdceee
    ensures T(4) == 0xf57c0faf
    ensures T(5) == 0x4787c62a
    ensures T(6) == 0xa8304613
    ensures T(7) == 0xfd469501
    ensures T(8) == 0x698098d8
    ensures T(9) == 0x8b44f7af
    ensures T(10) == 0xffff5bb1
    ensures T(11) == 0x895cd7be
    ensures T(12) == 0x6b901122
    ensures T(13) == 0xfd987193
    ensures T(14) == 0xa679438e
    ensures T(15) == 0x49b40821
  {
  }

  lemma Table2()
    ensures T(16) == 0xf61e2562
    ensures T(17) == 0xc040b340
    ensures T(18) == 0x265e5a51
    ensures T(19) == 0xe9b6c7aa
    ensures T(20) == 0xd62f105d
    ensures T(21) == 0x02441453
    ensures T(22) == 0xd8a1e681
    ensures T(23) == 0xe7d3fbc8
    ensures T(24) == 0x21e1cde6
    ensures T(25) == 0xc33707d6
    ensures T(26) == 0xf4d50d87
    ensures T(27) == 0x455a14ed
    ensures T(28) == 0xa9e3e905
    ensures T(29) == 0xfcefa3f8
    ensures T(30) == 0x676f02d9
    ensures T(31) == 0x8d2a4c8a
  {
  }

  lemma Table3()
    ensures T(32) == 0xfffa3942
    ensures T(33) == 0x8771f681
    ensures T(34) == 0x6d9d6122
    ensures T(35) == 0xfde5380c
    ensures T(36) == 0xa4beea44
    ensures T(37) == 0x4bdecfa9
    ensures T(38) == 0xf6bb4b60
    ensures T(39) == 0xbebfbc70
    ensures T(40) == 0x289b7ec6
    ensures T(41) == 0xeaa127fa
    ensures T(42) == 0xd4ef3085
    ensures T(43) == 0x04881d05
    ensures T(44) == 0xd9d4d039
    ensures T(45) == 0xe6db99e5
    ensures T(46) == 0x1fa27cf8
    ensures T(47) == 0xc4ac5665
  {
  }

  lemma Table4()
    ensures T(48) == 0xf4292244
    ensures T(49) == 0x432aff97
    ensures T(50) == 0xab9423a7
    ensures T(51) == 0xfc93a039
    ensures T(52) == 0x655b59c3
    ensures T(53) == 0x8f0ccc92
    ensures T(54) == 0xffeff47d
    ensures T(55) == 0x85845dd1
    ensures T(56) == 0x6fa87e4f
    ensures T(57) == 0xfe2ce6e0
    ensures T(58) == 0xa3014314
    ensures T(59) == 0x4e0811a1
    ensures T(60) == 0xf7537e82
    ensures T(61) == 0xbd3af235
    ensures T(62) == 0x2ad7d2bb
    ensures T(63) == 0xeb86d391
  {
  }

  lemma Schedule1()
    ensures K(0) == 0 && S(0) == 7
    ensures K(1) == 1 && S(1) == 12
    ensures K(2) == 2 && S(2) == 17
    ensures K(3) == 3 && S(3) == 22
    ensures K(4) == 4 && S(4) == 7
    ensures K(5) == 5 && S(5) == 12
    ensures K(6) == 6 && S(6) == 17
    ensures K(7) == 7 && S(7) == 22
    ensures K(8) == 8 && S(8) == 7
    ensures K(9) == 9 && S(9) == 12
    ensures K(10) == 10 && S(10) == 17
    ensures K(11) == 11 && S(11) == 22
    ensures K(12) == 12 && S(12) == 7
    ensures K(13) == 13 && S(13) == 12
    ensures K(14) == 14 && S(14) == 17
    ensures K(15) == 15 && S(15) == 22
  {
  }

  lemma Schedule2()
    ensures K(16) == 1 && S(16) == 5
    ensures K(17) == 6 && S(17) == 9
    ensures K(18) == 11 && S(18) == 14
    ensures K(19) == 0 && S(19) == 20
    ensures K(20) == 5 && S(20) == 5
    ensures K(21) == 10 && S(21) == 9
    ensures K(22) == 15 && S(22) == 14
    ensures K(23) == 4 && S(23) == 20
    ensures K(24) == 9 && S(24) == 5
    ensures K(25) == 14 && S(25) == 9
    ensures K(26) == 3 && S(26) == 14
    ensures K(27) == 8 && S(27) == 20
    ensures K(28) == 13 && S(28) == 5
    ensures K(29) == 2 && S(29) == 9
    ensures K(30) == 7 && S(30) == 14
    ensures K(31) == 12 && S(31) == 20
  {
  }

  lemma Schedule3()
    ensures K(32) == 5 && S(32) == 4
    ensures K(33) == 8 && S(33) == 11
    ensures K(34) == 11 && S(34) == 16
    ensures K(35) == 14 && S(35) == 23
    ensures K(36) == 1 && S(36) == 4
    ensures K(37) == 4 && S(37) == 11
    ensures K(38) == 7 && S(38) == 16
    ensures K(39) == 10 && S(39) == 23
    ensures K(40) == 13 && S(40) == 4
    ensures K(41) == 0 && S(41) == 11
    ensures K(42) == 3 && S(42) == 16
    ensures K(43) == 6 && S(43) == 23
    ensures K(44) == 9 && S(44) == 4
    ensures K(45) == 12 && S(45) == 11
    ensures K(46) == 15 && S(46) == 16
    ensures K(47) == 2 && S(47) == 23
  {
  }

  lemma Schedule4()
    ensures K(48) == 0 && S(48) == 6
    ensures K(49) == 7 && S(49) == 10
    ensures K(50) == 14 && S(50) == 15
    ensures K(51) == 5 && S(51) == 21
    ensures K(52) == 12 && S(52) == 6
    ensures K(53) == 3 && S(53) == 10
    ensures K(54) == 10 && S(54) == 15
    ensures K(55) == 1 && S(55) == 21
    ensures K(56) == 8 && S(56) == 6
    ensures K(57) == 15 && S(57) == 10
    ensures K(58) == 6 && S(58) == 15
    ensures K(59) == 13 && S(59) == 21
    ensures K(60) == 4 && S(60) == 6
    ensures K(61) == 11 && S(61) == 10
    ensures K(62) == 2 && S(62) == 15
    ensures K(63) == 9 && S(63) == 21
  {
  }

  /** The sixteen steps with F1. */
  method Round1(a0: Word, b0: Word, c0: Word, d0: Word, x: seq<Word>, ghost r: Abcd)
    returns (a: Word, b: Word, c: Word, d: Word)
    requires |x| == 16 && Abcd(a0, b0, c0, d0) == Operations(0, r, x)
    ensures Abcd(a, b, c, d) == Operations(16, r, x)
  {
    Table1();
    Schedule1();
    hide Operations, CodeStep, T, K, S;
    a, b, c, d := a0, b0, c0, d0;
    FourSteps(0, r, x);
    a := CodeStep(0, a, b, c, d, x[0], 0xd76aa478, 7);
    d := CodeStep(0, d, a, b, c, x[1], 0xe8c7b756, 12);
    c := CodeStep(0, c, d, a, b, x[2], 0x242070db, 17);
    b := CodeStep(0, b, c, d, a, x[3], 0xc1bdceee, 22);
    FourSteps(4, r, x);
    a := CodeStep(0, a, b, c, d, x[4], 0xf57c0faf, 7);
    d := CodeStep(0, d, a, b, c, x[5], 0x4787c62a, 12);
    c := CodeStep(0, c, d, a, b, x[6], 0xa8304613, 17);
    b := CodeStep(0, b, c, d, a, x[7], 0xfd469501, 22);
    FourSteps(8, r, x);
    a := CodeStep(0, a, b, c, d, x[8], 0x698098d8, 7);
    d := CodeStep(0, d, a, b, c, x[9], 0x8b44f7af, 12);
    c := CodeStep(0, c, d, a, b, x[10], 0xffff5bb1, 17);
    b := CodeStep(0, b, c, d, a, x[11], 0x895cd7be, 22);
    FourSteps(12, r, x);
    a := CodeStep(0, a, b, c, d, x[12], 0x6b901122, 7);
    d := CodeStep(0, d, a, b, c, x[13], 0xfd987193, 12);
    c := CodeStep(0, c, d, a, b, x[14], 0xa679438e, 17);
    b := CodeStep(0, b, c, d, a, x[15], 0x49b40821, 22);
  }

  /** The sixteen steps with F2. */
  method Round2(a0: Word, b0: Word, c0: Word, d0: Word, x: seq<Word>, ghost r: Abcd)
    returns (a: Word, b: Word, c: Word, d: Word)
    requires |x| == 16 && Abcd(a0, b0, c0, d0) == Operations(16, r, x)
    ensures Abcd(a, b, c, d) == Operations(32, r, x)
  {
    Table2();
    Schedule2();
    hide Operations, CodeStep, T, K, S;
    a, b, c, d := a0, b0, c0, d0;
    FourSteps(16, r, x);
    a := CodeStep(1, a, b, c, d, x[1], 0xf61e2562, 5);
    d := CodeStep(1, d, a, b, c, x[6], 0xc040b340, 9);
    c := CodeStep(1, c, d, a, b, x[11], 0x265e5a51, 14);
    b := CodeStep(1, b, c, d, a, x[0], 0xe9b6c7aa, 20);
    FourSteps(20, r, x);
    a := CodeStep(1, a, b, c, d, x[5], 0xd62f105d, 5);
    d := CodeStep(1, d, a, b, c, x[10], 0x02441453, 9);
    c := CodeStep(1, c, d, a, b, x[15], 0xd8a1e681, 14);
    b := CodeStep(1, b, c, d, a, x[4], 0xe7d3fbc8, 20);
    FourSteps(24, r, x);
    a := CodeStep(1, a, b, c, d, x[9], 0x21e1cde6, 5);
    d := CodeStep(1, d, a, b, c, x[14], 0xc33707d6, 9);
    c := CodeStep(1, c, d, a, b, x[3], 0xf4d50d87, 14);
    b := CodeStep(1, b, c, d, a, x[8], 0x455a14ed, 20);
    FourSteps(28, r, x);
    a := CodeStep(1, a, b, c, d, x[13], 0xa9e3e905, 5);
    d := CodeStep(1, d, a, b, c, x[2], 0xfcefa3f8, 9);
    c := CodeStep(1, c, d, a, b, x[7], 0x676f02d9, 14);
    b := CodeStep(1, b, c, d, a, x[12], 0x8d2a4c8a, 20);
  }

  /** The sixteen steps with F3. */
  method Round3(a0: Word, b0: Word, c0: Word, d0: Word, x: seq<Word>, ghost r: Abcd)
    returns (a: Word, b: Word, c: Word, d: Word)
    requires |x| == 16 && Abcd(a0, b0, c0, d0) == Operations(32, r, x)
    ensures Abcd(a, b, c, d) == Operations(48, r, x)
  {
    Table3();
    Schedule3();
    hide Operations, CodeStep, T, K, S;
    a, b, c, d := a0, b0, c0, d0;
    FourSteps(32, r, x);
    a := CodeStep(2, a, b, c, d, x[5], 0xfffa3942, 4);
    d := CodeStep(2, d, a, b, c, x[8], 0x8771f681, 11);
    c := CodeStep(2, c, d, a, b, x[11], 0x6d9d6122, 16);
    b := CodeStep(2, b, c, d, a, x[14], 0xfde5380c, 23);
    FourSteps(36, r, x);
    a := CodeStep(2, a, b, c, d, x[1], 0xa4beea44, 4);
    d := CodeStep(2, d, a, b, c, x[4], 0x4bdecfa9, 11);
    c := CodeStep(2, c, d, a, b, x[7], 0xf6bb4b60, 16);
    b := CodeStep(2, b, c, d, a, x[10], 0xbebfbc70, 23);
    FourSteps(40, r, x);
    a := CodeStep(2, a, b, c, d, x[13], 0x289b7ec6, 4);
    d := CodeStep(2, d, a, b, c, x[0], 0xeaa127fa, 11);
    c := CodeStep(2, c, d, a, b, x[3], 0xd4ef3085, 16);
    b := CodeStep(2, b, c, d, a, x[6], 0x04881d05, 23);
    FourSteps(44, r, x);
    a := CodeStep(2, a, b, c, d, x[9], 0xd9d4d039, 4);
    d := CodeStep(2, d, a, b, c, x[12], 0xe6db99e5, 11);
    c := CodeStep(2, c, d, a, b, x[15], 0x1fa27cf8, 16);
    b := CodeStep(2, b, c, d, a, x[2], 0xc4ac5665, 23);
  }

  /** The sixteen steps with F4. */
  method Round4(a0: Word, b0: Word, c0: Word, d0: Word, x: seq<Word>, ghost r: Abcd)
    returns (a: Word, b: Word, c: Word, d: Word)
    requires |x| == 16 && Abcd(a0, b0, c0, d0) == Operations(48, r, x)
    ensures Abcd(a, b, c, d) == Operations(64, r, x)
  {
    Table4();
    Schedule4();
    hide Operations, CodeStep, T, K, S;
    a, b, c, d := a0, b0, c0, d0;
    FourSteps(48, r, x);
    a := CodeStep(3, a, b, c, d, x[0], 0xf4292244, 6);
    d := CodeStep(3, d, a, b, c, x[7], 0x432aff97, 10);
    c := CodeStep(3, c, d, a, b, x[14], 0xab9423a7, 15);
    b := CodeStep(3, b, c, d, a, x[5], 0xfc93a039, 21);
    FourSteps(52, r, x);
    a := CodeStep(3, a, b, c, d, x[12], 0x655b59c3, 6);
    d := CodeStep(3, d, a, b, c, x[3], 0x8f0ccc92, 10);
    c := CodeStep(3, c, d, a, b, x[10], 0xffeff47d, 15);
    b := CodeStep(3, b, c, d, a, x[1], 0x85845dd1, 21);
    FourSteps(56, r, x);
    a := CodeStep(3, a, b, c, d, x[8], 0x6fa87e4f, 6);
    d := CodeStep(3, d, a, b, c, x[15], 0xfe2ce6e0, 10);
    c := CodeStep(3, c, d, a, b, x[6], 0xa3014314, 15);
    b := CodeStep(3, b, c, d, a, x[13], 0x4e0811a1, 21);
    FourSteps(60, r, x);
    a := CodeStep(3, a, b, c, d, x[4], 0xf7537e82, 6);
    d := CodeStep(3, d, a, b, c, x[11], 0xbd3af235, 10);
    c := CodeStep(3, c, d, a, b, x[2], 0x2ad7d2bb, 15);
    b := CodeStep(3, b, c, d, a, x[9], 0xeb86d391, 21);
  }

  /** lsapi_MD5Transform. */
  method Transform(buf: array<Word>, x: seq<Word>)
    requires buf.Length == 4 && |x| == 16
    modifies buf
    ensures Abcd(buf[0], buf[1], buf[2], buf[3]) ==
            Compress(old(Abcd(buf[0], buf[1], buf[2], buf[3])), x)
  {
    var a, b, c, d := buf[0], buf[1], buf[2], buf[3];
    ghost var r := Abcd(a, b, c, d);
    assert Operations(0, r, x) == r;
    hide Operations, Add;
    a, b, c, d := Round1(a, b, c, d, x, r);
    a, b, c, d := Round2(a, b, c, d, x, r);
    a, b, c, d := Round3(a, b, c, d, x, r);
    a, b, c, d := Round4(a, b, c, d, x, r);
    buf[0] := Add(buf[0], a);
    buf[1] := Add(buf[1], b);
    buf[2] := Add(buf[2], c);
    buf[3] := Add(buf[3], d);
  }
}
