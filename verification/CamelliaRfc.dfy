/** Sections 2.3 and 2.4 of RFC 3713 as they stand, on 64-bit numbers, and that the kernel's cipher is
    that one.  The standard is written without the word operations of the other modules. */
module CamelliaRfc {
  import opened Words
  import opened Camellia

  type Long = bv64

  // ----- numbers -----

  function Octet(x: Long): Word { (x & 0xff) as Word }

  function Octets(x: Long): (r: seq<Word>)
    ensures |r| == 8
  {
    [Octet(x >> 56), Octet(x >> 48), Octet(x >> 40), Octet(x >> 32),
     Octet(x >> 24), Octet(x >> 16), Octet(x >> 8), Octet(x)]
  }

  /** The number made of eight octets, the first being the most significant. */
  function Number(y1: Word, y2: Word, y3: Word, y4: Word, y5: Word, y6: Word, y7: Word, y8: Word): Long {
    ((y1 as Long) << 56) | ((y2 as Long) << 48) | ((y3 as Long) << 40) | ((y4 as Long) << 32)
    | ((y5 as Long) << 24) | ((y6 as Long) << 16) | ((y7 as Long) << 8) | (y8 as Long)
  }

  function High(x: Long): Word { (x >> 32) as Word }

  function Low(x: Long): Word { (x & 0xffff_ffff) as Word }

  function Joined(high: Word, low: Word): Long { ((high as Long) << 32) | (low as Long) }

  function Sum(x: Long, y: Long): Long { x ^ y }

  // ----- the standard -----

  /** One look-up; the boxes give 8-bit numbers. */
  function Look(box: Word -> Word, i: Word): Word { box(i) & 0xff }

  function Plus(a: Word, b: Word): Word { a ^ b }

  function Both(a: Word, b: Word): Word { a & b }

  function Either(a: Word, b: Word): Word { a | b }

  function Turned(a: Word): Word { a.RotateLeft(1) }

  function Plus5(a: Word, b: Word, c: Word, d: Word, e: Word): Word { Plus(Plus(Plus(Plus(a, b), c), d), e) }

  function Plus6(a: Word, b: Word, c: Word, d: Word, e: Word, f: Word): Word { Plus(Plus5(a, b, c, d, e), f) }

  /** Section 2.4.1. */
  function StdF(s: Sboxes, fin: Long, ke: Long): Long {
    var x := Octets(Sum(fin, ke));
    var t1, t2, t3, t4 := Look(s.s1, x[0]), Look(s.s2, x[1]), Look(s.s3, x[2]), Look(s.s4, x[3]);
    var t5, t6, t7, t8 := Look(s.s2, x[4]), Look(s.s3, x[5]), Look(s.s4, x[6]), Look(s.s1, x[7]);
    Number(Plus6(t1, t3, t4, t6, t7, t8),
           Plus6(t1, t2, t4, t5, t7, t8),
           Plus6(t1, t2, t3, t5, t6, t8),
           Plus6(t2, t3, t4, t5, t6, t7),
           Plus5(t1, t2, t6, t7, t8),
           Plus5(t2, t3, t5, t7, t8),
           Plus5(t3, t4, t5, t6, t8),
           Plus5(t1, t4, t5, t6, t7))
  }

  /** Section 2.4.2. */
  function StdFL(x: Long, ke: Long): Long {
    var x2 := Plus(Low(x), Turned(Both(High(x), High(ke))));
    var x1 := Plus(High(x), Either(x2, Low(ke)));
    Joined(x1, x2)
  }

  /** Section 2.4.3. */
  function StdFLInv(y: Long, ke: Long): Long {
    var y1 := Plus(High(y), Either(Low(y), Low(ke)));
    var y2 := Plus(Low(y), Turned(Both(y1, High(ke))));
    Joined(y1, y2)
  }

  datatype Data = Data(d1: Long, d2: Long)

  /** Rounds that change the right and the left half in turn. */
  function StdRounds(s: Sboxes, ks: seq<Long>, d: Data): Data {
    if |ks| < 2 then d
    else
      var d2 := Sum(d.d2, StdF(s, d.d1, ks[0]));
      var d1 := Sum(d.d1, StdF(s, d2, ks[1]));
      StdRounds(s, ks[2..], Data(d1, d2))
  }

  /** The six rounds with the subkeys from `i` on. */
  function StdGroup(s: Sboxes, k: seq<Long>, i: nat, d: Data): Data
    requires i + 6 <= |k|
  {
    StdRounds(s, k[i..i + 6], d)
  }

  function StdLayer(ke1: Long, ke2: Long, d: Data): Data {
    Data(StdFL(d.d1, ke1), StdFLInv(d.d2, ke2))
  }

  /** Sections 2.3.1 and 2.3.2: 18 rounds with 26 subkeys, 24 with 34, in the order of their use. */
  function StdEncrypt(s: Sboxes, k: seq<Long>, m: Data): Data
    requires |k| == 26 || |k| == 34
  {
    var n := |k|;
    var d := StdGroup(s, k, 2, Data(Sum(m.d1, k[0]), Sum(m.d2, k[1])));
    var e := StdGroup(s, k, 10, StdLayer(k[8], k[9], d));
    var f := StdGroup(s, k, 18, StdLayer(k[16], k[17], e));
    var g := if n == 34 then StdGroup(s, k, 26, StdLayer(k[24], k[25], f)) else f;
    Data(Sum(g.d2, k[n - 2]), Sum(g.d1, k[n - 1]))
  }

  // ----- halves as numbers -----

  function Num(h: Half): Long { Joined(h.l, h.r) }

  function Nums(k: seq<Half>): (r: seq<Long>)
    ensures |r| == |k| && forall i :: 0 <= i < |k| ==> r[i] == Num(k[i])
  {
    seq(|k|, i requires 0 <= i < |k| => Num(k[i]))
  }

  function NumBlock(b: Block): Data { Data(Num(b.a), Num(b.b)) }

  lemma Halves(l: Word, r: Word)
    ensures High(Joined(l, r)) == l && Low(Joined(l, r)) == r
  {}

  lemma RawXor(a: Word, b: Word, c: Word, d: Word)
    ensures Joined(X(a, c), X(b, d)) == Sum(Joined(a, b), Joined(c, d))
  {}

  lemma NumXor(x: Half, y: Half)
    ensures Num(Xor(x, y)) == Sum(Num(x), Num(y))
  {
    hide Joined, X, Sum;
    RawXor(x.l, x.r, y.l, y.r);
  }

  // ----- F -----

  lemma OctetsOf(l: Word, r: Word)
    ensures Octets(Joined(l, r)) == [B3(l), B2(l), B1(l), B0(l), B3(r), B2(r), B1(r), B0(r)]
  {}

  /** Eight octets as the halves put them together and as the standard does. */
  lemma Packed(a: Word, b: Word, c: Word, d: Word, e: Word, f: Word, g: Word, h: Word)
    requires IsByte(a) && IsByte(b) && IsByte(c) && IsByte(d) && IsByte(e) && IsByte(f) && IsByte(g) && IsByte(h)
    ensures Joined(Pack(a, b, c, d), Pack(e, f, g, h)) == Number(a, b, c, d, e, f, g, h)
  {}

  /** The operations on words are those of the standard. */
  lemma SameWords(a: Word, b: Word)
    ensures X(a, b) == Plus(a, b) && And(a, b) == Both(a, b) && Or(a, b) == Either(a, b) && Rol1(a) == Turned(a)
  {}

  lemma SameFive(a: Word, b: Word, c: Word, d: Word, e: Word)
    ensures Plus5(a, b, c, d, e) == X(X(X(X(a, b), c), d), e)
  {
    hide X, And, Or, Rol1, Plus, Both, Either, Turned;
    SameWords(a, b);
    SameWords(X(a, b), c);
    SameWords(X(X(a, b), c), d);
    SameWords(X(X(X(a, b), c), d), e);
  }

  lemma SumSix(a: Word, b: Word, c: Word, d: Word, e: Word, f: Word)
    ensures X(X(X(a, b), c), X(X(f, d), e)) == Plus6(a, b, c, d, e, f)
    ensures X(X(X(a, b), c), X(X(d, e), f)) == Plus6(a, b, c, d, e, f)
  {
    hide X, And, Or, Rol1, Plus, Both, Either, Turned, Plus5;
    var p := X(X(a, b), c);
    XRotate(d, e, f);
    XAssoc(p, X(d, e), f);
    XAssoc(p, d, e);
    SameFive(a, b, c, d, e);
    SameWords(Plus5(a, b, c, d, e), f);
  }

  lemma SumFive(a: Word, b: Word, c: Word, d: Word, e: Word)
    ensures X(X(a, b), X(X(e, c), d)) == Plus5(a, b, c, d, e)
    ensures X(X(b, a), X(X(c, d), e)) == Plus5(a, b, c, d, e)
  {
    hide X, Plus5;
    var p := X(a, b);
    XComm(a, b);
    XRotate(c, d, e);
    XAssoc(p, X(c, d), e);
    XAssoc(p, c, d);
    SameFive(a, b, c, d, e);
  }

  lemma BytesOfP(a: Word, b: Word, c: Word, d: Word, e: Word, f: Word)
    requires IsByte(a) && IsByte(b) && IsByte(c) && IsByte(d) && IsByte(e) && IsByte(f)
    ensures IsByte(Plus6(a, b, c, d, e, f)) && IsByte(Plus5(a, b, c, d, e))
  {
    hide IsByte, X, And, Or, Rol1, Plus, Both, Either, Turned, Plus5;
    ByteXor(a, b); ByteXor(X(a, b), c); ByteXor(X(X(a, b), c), d); ByteXor(X(X(X(a, b), c), d), e);
    SameFive(a, b, c, d, e);
    ByteXor(Plus5(a, b, c, d, e), f);
    SameWords(Plus5(a, b, c, d, e), f);
  }

  /** The P function on the outputs of the boxes. */
  lemma PIsStd(t1: Word, t2: Word, t3: Word, t4: Word, t5: Word, t6: Word, t7: Word, t8: Word)
    requires IsByte(t1) && IsByte(t2) && IsByte(t3) && IsByte(t4)
    requires IsByte(t5) && IsByte(t6) && IsByte(t7) && IsByte(t8)
    ensures var a, b, c, d := X(X(t1, t3), t4), X(X(t1, t2), t4), X(X(t1, t2), t3), X(X(t2, t3), t4);
            var e, f, g, h := X(X(t8, t6), t7), X(X(t8, t5), t7), X(X(t8, t5), t6), X(X(t5, t6), t7);
            Joined(Pack(X(a, e), X(b, f), X(c, g), X(d, h)),
                   Pack(X(X(t1, t2), e), X(X(t2, t3), f), X(X(t3, t4), g), X(X(t4, t1), h))) ==
            Number(Plus6(t1, t3, t4, t6, t7, t8), Plus6(t1, t2, t4, t5, t7, t8),
                   Plus6(t1, t2, t3, t5, t6, t8), Plus6(t2, t3, t4, t5, t6, t7),
                   Plus5(t1, t2, t6, t7, t8), Plus5(t2, t3, t5, t7, t8),
                   Plus5(t3, t4, t5, t6, t8), Plus5(t1, t4, t5, t6, t7))
  {
    hide X, Plus5, Plus6, Pack, Joined, Number, IsByte;
    SumSix(t1, t3, t4, t6, t7, t8); SumSix(t1, t2, t4, t5, t7, t8);
    SumSix(t1, t2, t3, t5, t6, t8); SumSix(t2, t3, t4, t5, t6, t7);
    SumFive(t1, t2, t6, t7, t8); SumFive(t2, t3, t5, t7, t8);
    SumFive(t3, t4, t5, t6, t8); SumFive(t1, t4, t5, t6, t7);
    BytesOfP(t1, t3, t4, t6, t7, t8); BytesOfP(t1, t2, t4, t5, t7, t8);
    BytesOfP(t1, t2, t3, t5, t6, t8); BytesOfP(t2, t3, t4, t5, t6, t7);
    BytesOfP(t1, t2, t6, t7, t8, t8); BytesOfP(t2, t3, t5, t7, t8, t8);
    BytesOfP(t3, t4, t5, t6, t8, t8); BytesOfP(t1, t4, t5, t6, t7, t7);
    Packed(Plus6(t1, t3, t4, t6, t7, t8), Plus6(t1, t2, t4, t5, t7, t8),
           Plus6(t1, t2, t3, t5, t6, t8), Plus6(t2, t3, t4, t5, t6, t7),
           Plus5(t1, t2, t6, t7, t8), Plus5(t2, t3, t5, t7, t8),
           Plus5(t3, t4, t5, t6, t8), Plus5(t1, t4, t5, t6, t7));
  }

  lemma Looked(box: Word -> Word, i: Word)
    ensures Look(box, i) == Byte(box(i)) && IsByte(Byte(box(i)))
  {
    ByteIsByte(box(i));
  }

  lemma FIsStd(s: Sboxes, x: Half, k: Half)
    ensures Num(RfcF(s, Xor(x, k))) == StdF(s, Num(x), Num(k))
  {
    hide Pack, Byte, B3, B2, B1, B0, IsByte, X, Look, Plus5, Plus6, Number, Joined, Sum, Octets, Xor;
    var z := Xor(x, k);
    NumXor(x, k);
    OctetsOf(z.l, z.r);
    Looked(s.s1, B3(z.l)); Looked(s.s2, B2(z.l)); Looked(s.s3, B1(z.l)); Looked(s.s4, B0(z.l));
    Looked(s.s2, B3(z.r)); Looked(s.s3, B2(z.r)); Looked(s.s4, B1(z.r)); Looked(s.s1, B0(z.r));
    PIsStd(Byte(s.s1(B3(z.l))), Byte(s.s2(B2(z.l))), Byte(s.s3(B1(z.l))), Byte(s.s4(B0(z.l))),
           Byte(s.s2(B3(z.r))), Byte(s.s3(B2(z.r))), Byte(s.s4(B1(z.r))), Byte(s.s1(B0(z.r))));
  }

  // ----- FL and FLINV -----

  lemma FLIsStd(x: Half, k: Half)
    ensures Num(FL(x, k)) == StdFL(Num(x), Num(k)) && Num(FLInv(x, k)) == StdFLInv(Num(x), Num(k))
  {
    hide Joined, High, Low, X, And, Or, Rol1, Plus, Both, Either, Turned;
    Halves(x.l, x.r);
    Halves(k.l, k.r);
    FLWords(x.l, x.r, k.l, k.r);
  }

  lemma FLWords(l: Word, r: Word, kl: Word, kr: Word)
    ensures X(r, Rol1(And(l, kl))) == Plus(r, Turned(Both(l, kl)))
    ensures var r1 := X(r, Rol1(And(l, kl))); X(l, Or(r1, kr)) == Plus(l, Either(r1, kr))
    ensures X(l, Or(r, kr)) == Plus(l, Either(r, kr))
    ensures var l1 := X(l, Or(r, kr)); X(r, Rol1(And(l1, kl))) == Plus(r, Turned(Both(l1, kl)))
  {
    hide X, And, Or, Rol1, Plus, Both, Either, Turned;
    var r1, l1 := X(r, Rol1(And(l, kl))), X(l, Or(r, kr));
    SameWords(l, kl); SameWords(And(l, kl), kl); SameWords(r, Rol1(And(l, kl)));
    SameWords(r1, kr); SameWords(l, Or(r1, kr));
    SameWords(r, kr); SameWords(l, Or(r, kr));
    SameWords(l1, kl); SameWords(And(l1, kl), kl); SameWords(r, Rol1(And(l1, kl)));
  }

  // ----- the whole cipher -----

  lemma RoundsAreStd(s: Sboxes, k: seq<Half>, i: nat, d: Block)
    requires i + 8 <= |k|
    ensures NumBlock(RfcRounds(s, k, i, d)) == StdGroup(s, Nums(k), i + 2, NumBlock(d))
  {
    hide Xor, RfcF, StdF, Sum, Num, Nums, StdRounds;
    var ks := Nums(k)[i + 2..i + 8];
    var d2 := Xor(d.b, RfcF(s, Xor(d.a, k[i + 2])));
    var d1 := Xor(d.a, RfcF(s, Xor(d2, k[i + 3])));
    TwoRounds(s, d.a, d.b, k[i + 2], k[i + 3], ks);
    var e2 := Xor(d2, RfcF(s, Xor(d1, k[i + 4])));
    var e1 := Xor(d1, RfcF(s, Xor(e2, k[i + 5])));
    assert ks[2..][0] == ks[2] && ks[2..][1] == ks[3];
    TwoRounds(s, d1, d2, k[i + 4], k[i + 5], ks[2..]);
    var f2 := Xor(e2, RfcF(s, Xor(e1, k[i + 6])));
    var f1 := Xor(e1, RfcF(s, Xor(f2, k[i + 7])));
    assert ks[2..][2..][0] == ks[4] && ks[2..][2..][1] == ks[5];
    TwoRounds(s, e1, e2, k[i + 6], k[i + 7], ks[2..][2..]);
    NoRounds(s, ks[2..][2..][2..], Data(Num(f1), Num(f2)));
  }

  lemma NoRounds(s: Sboxes, ks: seq<Long>, d: Data)
    requires |ks| == 0
    ensures StdRounds(s, ks, d) == d
  {}

  lemma TwoRounds(s: Sboxes, a: Half, b: Half, k1: Half, k2: Half, ks: seq<Long>)
    requires |ks| >= 2 && ks[0] == Num(k1) && ks[1] == Num(k2)
    ensures var b' := Xor(b, RfcF(s, Xor(a, k1)));
            var a' := Xor(a, RfcF(s, Xor(b', k2)));
            StdRounds(s, ks, Data(Num(a), Num(b))) == StdRounds(s, ks[2..], Data(Num(a'), Num(b')))
  {
    hide Xor, RfcF, StdF, Sum, Num;
    var b' := Xor(b, RfcF(s, Xor(a, k1)));
    FIsStd(s, a, k1);
    NumXor(b, RfcF(s, Xor(a, k1)));
    FIsStd(s, b', k2);
    NumXor(a, RfcF(s, Xor(b', k2)));
  }

  lemma LayerIsStd(k: seq<Half>, i: nat, d: Block)
    requires i + 1 < |k|
    ensures NumBlock(RfcFls(k, i, d)) == StdLayer(Nums(k)[i], Nums(k)[i + 1], NumBlock(d))
  {
    hide FL, FLInv, StdFL, StdFLInv, Num, Nums;
    FLIsStd(d.a, k[i]);
    FLIsStd(d.b, k[i + 1]);
  }

  lemma LayerAndRounds(s: Sboxes, k: seq<Half>, i: nat, d: Block)
    requires i + 8 <= |k|
    ensures NumBlock(RfcRounds(s, k, i, RfcFls(k, i, d))) ==
            StdGroup(s, Nums(k), i + 2, StdLayer(Nums(k)[i], Nums(k)[i + 1], NumBlock(d)))
  {
    hide RfcRounds, RfcFls, StdGroup, StdLayer, NumBlock;
    LayerIsStd(k, i, d);
    RoundsAreStd(s, k, i, RfcFls(k, i, d));
  }

  lemma Whitened(d: Block, k1: Half, k2: Half)
    ensures NumBlock(Block(Xor(d.a, k1), Xor(d.b, k2))) == Data(Sum(Num(d.a), Num(k1)), Sum(Num(d.b), Num(k2)))
    ensures NumBlock(Block(Xor(d.b, k1), Xor(d.a, k2))) == Data(Sum(Num(d.b), Num(k1)), Sum(Num(d.a), Num(k2)))
  {
    hide Xor, Num, Sum;
    NumXor(d.a, k1); NumXor(d.b, k2); NumXor(d.b, k1); NumXor(d.a, k2);
  }

  /** The cipher on halves is the standard. */
  lemma HalvesAreStd(s: Sboxes, k: seq<Half>, max: nat, m: Block)
    requires (max == 24 || max == 32) && |k| == max + 2
    ensures NumBlock(RfcEncrypt(s, k, max, m)) == StdEncrypt(s, Nums(k), NumBlock(m))
  {
    hide Xor, RfcRounds, RfcFls, StdGroup, StdLayer, Num, Sum;
    Whitened(m, k[0], k[1]);
    var d0 := Block(Xor(m.a, k[0]), Xor(m.b, k[1]));
    RoundsAreStd(s, k, 0, d0);
    var d1 := RfcRounds(s, k, 0, d0);
    LayerAndRounds(s, k, 8, d1);
    var d2 := RfcRounds(s, k, 8, RfcFls(k, 8, d1));
    LayerAndRounds(s, k, 16, d2);
    var d := RfcRounds(s, k, 16, RfcFls(k, 16, d2));
    if max == 32 {
      LayerAndRounds(s, k, 24, d);
      d := RfcRounds(s, k, 24, RfcFls(k, 24, d));
    }
    Whitened(d, k[max], k[max + 1]);
  }

  /** For all S-boxes, subkeys and blocks and both lengths, the kernel's cipher on its rewritten table is
      the cipher of RFC 3713 on the plain subkeys, and its decryption undoes that cipher. */
  lemma CipherIsStd(s: Sboxes, k: seq<Half>, t: seq<Half>, max: nat, m: Block, c: Block)
    requires (max == 24 || max == 32) && |k| == |t| == max + 2 && IsTable(k, t, max)
    ensures NumBlock(Encrypt(s, t, max, m)) == StdEncrypt(s, Nums(k), NumBlock(m))
    ensures NumBlock(c) == StdEncrypt(s, Nums(k), NumBlock(m)) ==> Decrypt(s, t, max, c) == m
  {
    hide IsTable, Encrypt, Decrypt, RfcEncrypt, StdEncrypt, Nums;
    EncryptIsRfc(s, k, t, max, m);
    HalvesAreStd(s, k, max, m);
    DecryptUndoes(s, t, max, m);
    if NumBlock(c) == NumBlock(Encrypt(s, t, max, m)) {
      SameBlock(c, Encrypt(s, t, max, m));
    }
  }

  lemma SameBlock(x: Block, y: Block)
    requires NumBlock(x) == NumBlock(y)
    ensures x == y
  {
    hide Joined, High, Low;
    Halves(x.a.l, x.a.r); Halves(y.a.l, y.a.r);
    Halves(x.b.l, x.b.r); Halves(y.b.l, y.b.r);
  }
}
