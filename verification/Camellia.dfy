/** The Camellia block cipher: the cipher as section 2 of RFC 3713 describes it, and the one
    the kernel runs, whose whitening keys are absorbed into the round keys and whose round
    keys are added behind the F function instead of before it.  Blocks and subkeys are pairs
    of 64-bit halves; the four S-boxes are parameters. */
module Camellia {
  import opened Words

  /** A 64-bit half block or subkey. */
  datatype Half = Half(l: Word, r: Word)

  datatype Block = Block(a: Half, b: Half)

  /** The S-boxes, as functions on byte values. */
  datatype Sboxes = Sboxes(s1: Word -> Word, s2: Word -> Word, s3: Word -> Word, s4: Word -> Word)

  function Xor(x: Half, y: Half): Half { Half(X(x.l, y.l), X(x.r, y.r)) }

  // ----- the lookup tables: one S-box byte spread over a word -----

  function Sp1110(s: Sboxes, i: Word): Word { var t := Byte(s.s1(i)); Pack(t, t, t, 0) }

  function Sp0222(s: Sboxes, i: Word): Word { var t := Byte(s.s2(i)); Pack(0, t, t, t) }

  function Sp3033(s: Sboxes, i: Word): Word { var t := Byte(s.s3(i)); Pack(t, 0, t, t) }

  function Sp4404(s: Sboxes, i: Word): Word { var t := Byte(s.s4(i)); Pack(t, t, 0, t) }

  /** Lookups of the right and of the left word of a half block. */
  function LookupRight(s: Sboxes, x: Word): Word {
    X(X(X(Sp1110(s, B0(x)), Sp0222(s, B3(x))), Sp3033(s, B2(x))), Sp4404(s, B1(x)))
  }

  function LookupLeft(s: Sboxes, x: Word): Word {
    X(X(X(Sp1110(s, B3(x)), Sp0222(s, B2(x))), Sp3033(s, B1(x))), Sp4404(s, B0(x)))
  }

  /** `CAMELLIA_F` with the key already added. */
  function F(s: Sboxes, x: Half): Half {
    var u, v := LookupRight(s, x.r), LookupLeft(s, x.l);
    Half(X(u, v), X(X(Ror8(v), u), v))
  }

  // ----- RFC 3713 -----

  /** The F function of section 2.4.1: S-boxes byte by byte, then the P function. */
  function RfcF(s: Sboxes, x: Half): Half {
    var t1, t2 := Byte(s.s1(B3(x.l))), Byte(s.s2(B2(x.l)));
    var t3, t4 := Byte(s.s3(B1(x.l))), Byte(s.s4(B0(x.l)));
    var t5, t6 := Byte(s.s2(B3(x.r))), Byte(s.s3(B2(x.r)));
    var t7, t8 := Byte(s.s4(B1(x.r))), Byte(s.s1(B0(x.r)));
    var a, b, c, d := X(X(t1, t3), t4), X(X(t1, t2), t4), X(X(t1, t2), t3), X(X(t2, t3), t4);
    var e, f, g, h := X(X(t8, t6), t7), X(X(t8, t5), t7), X(X(t8, t5), t6), X(X(t5, t6), t7);
    Half(Pack(X(a, e), X(b, f), X(c, g), X(d, h)),
         Pack(X(X(t1, t2), e), X(X(t2, t3), f), X(X(t3, t4), g), X(X(t4, t1), h)))
  }

  /** Section 2.4.2. */
  function FL(x: Half, k: Half): Half {
    var r := X(x.r, Rol1(And(x.l, k.l)));
    Half(X(x.l, Or(r, k.r)), r)
  }

  /** Section 2.4.3. */
  function FLInv(y: Half, k: Half): Half {
    var l := X(y.l, Or(y.r, k.r));
    Half(l, X(y.r, Rol1(And(l, k.l))))
  }

  /** Six rounds with the keys at `i + 2` and on. */
  function RfcRounds(s: Sboxes, k: seq<Half>, i: nat, d: Block): Block
    requires i + 8 <= |k|
  {
    var d2 := Xor(d.b, RfcF(s, Xor(d.a, k[i + 2])));
    var d1 := Xor(d.a, RfcF(s, Xor(d2, k[i + 3])));
    var e2 := Xor(d2, RfcF(s, Xor(d1, k[i + 4])));
    var e1 := Xor(d1, RfcF(s, Xor(e2, k[i + 5])));
    var f2 := Xor(e2, RfcF(s, Xor(e1, k[i + 6])));
    var f1 := Xor(e1, RfcF(s, Xor(f2, k[i + 7])));
    Block(f1, f2)
  }

  function RfcFls(k: seq<Half>, i: nat, d: Block): Block
    requires i + 1 < |k|
  {
    Block(FL(d.a, k[i]), FLInv(d.b, k[i + 1]))
  }

  /** Sections 2.3.1 and 2.3.2; `max` is 24 for 18 rounds and 32 for 24.  The subkeys are kept
      in the order kw1, kw2, k1..k6, kl1, kl2, k7..., kw3, kw4. */
  function RfcEncrypt(s: Sboxes, k: seq<Half>, max: nat, m: Block): Block
    requires (max == 24 || max == 32) && |k| == max + 2
  {
    var d0 := Block(Xor(m.a, k[0]), Xor(m.b, k[1]));
    var d1 := RfcRounds(s, k, 0, d0);
    var d2 := RfcRounds(s, k, 8, RfcFls(k, 8, d1));
    var d3 := RfcRounds(s, k, 16, RfcFls(k, 16, d2));
    var d := if max == 32 then RfcRounds(s, k, 24, RfcFls(k, 24, d3)) else d3;
    Block(Xor(d.b, k[max]), Xor(d.a, k[max + 1]))
  }

  // ----- the kernel's cipher -----

  /** `CAMELLIA_ROUNDSM`: the new right half. */
  function RoundSM(s: Sboxes, x: Half, k: Half, y: Half): Half {
    var il := X(LookupLeft(s, x.l), k.l);
    var ir := X(X(LookupRight(s, x.r), il), k.r);
    Half(X(y.l, ir), X(X(y.r, Ror8(il)), ir))
  }

  /** `ROUNDS(i)` of encryption. */
  function Rounds(s: Sboxes, t: seq<Half>, i: nat, d: Block): Block
    requires i + 8 <= |t|
  {
    var d2 := RoundSM(s, d.a, t[i + 2], d.b);
    var d1 := RoundSM(s, d2, t[i + 3], d.a);
    var e2 := RoundSM(s, d1, t[i + 4], d2);
    var e1 := RoundSM(s, e2, t[i + 5], d1);
    var f2 := RoundSM(s, e1, t[i + 6], e2);
    var f1 := RoundSM(s, f2, t[i + 7], e1);
    Block(f1, f2)
  }

  /** `ROUNDS(i)` of decryption, which takes the subkeys backwards. */
  function RoundsBack(s: Sboxes, t: seq<Half>, i: nat, d: Block): Block
    requires i + 8 <= |t|
  {
    var d2 := RoundSM(s, d.a, t[i + 7], d.b);
    var d1 := RoundSM(s, d2, t[i + 6], d.a);
    var e2 := RoundSM(s, d1, t[i + 5], d2);
    var e1 := RoundSM(s, e2, t[i + 4], d1);
    var f2 := RoundSM(s, e1, t[i + 3], e2);
    var f1 := RoundSM(s, f2, t[i + 2], e1);
    Block(f1, f2)
  }

  /** `CAMELLIA_FLS` with the keys `ka` and `kb`. */
  function Fls(ka: Half, kb: Half, d: Block): Block {
    Block(FL(d.a, ka), FLInv(d.b, kb))
  }

  /** `camellia_do_encrypt`, followed by the swap its caller makes. */
  function Encrypt(s: Sboxes, t: seq<Half>, max: nat, m: Block): Block
    requires (max == 24 || max == 32) && |t| == max + 2
  {
    var d1 := Rounds(s, t, 0, Block(Xor(m.a, t[0]), m.b));
    var d2 := Rounds(s, t, 8, Fls(t[8], t[9], d1));
    var d3 := Rounds(s, t, 16, Fls(t[16], t[17], d2));
    var d := if max == 32 then Rounds(s, t, 24, Fls(t[24], t[25], d3)) else d3;
    Block(Xor(d.b, t[max]), d.a)
  }

  /** `camellia_do_decrypt`, followed by the swap its caller makes. */
  function Decrypt(s: Sboxes, t: seq<Half>, max: nat, c: Block): Block
    requires (max == 24 || max == 32) && |t| == max + 2
  {
    var d := Block(Xor(c.a, t[max]), c.b);
    var d3 := if max == 32 then Fls(t[25], t[24], RoundsBack(s, t, 24, d)) else d;
    var d2 := Fls(t[17], t[16], RoundsBack(s, t, 16, d3));
    var d1 := Fls(t[9], t[8], RoundsBack(s, t, 8, d2));
    var d0 := RoundsBack(s, t, 0, d1);
    Block(Xor(d0.b, t[0]), d0.a)
  }

  // ----- words -----

  /** What is added twice goes away. */
  lemma XCancel(a: Word, b: Word, c: Word)
    ensures X(X(a, b), X(b, c)) == X(a, c)
  {
    hide X;
    XAssoc(a, b, X(b, c));
    XAssoc(b, b, c);
    XSelf(b);
    XSelf(c);
  }

  lemma PackXor(a: Word, b: Word, c: Word, d: Word, e: Word, f: Word, g: Word, h: Word)
    requires IsByte(a) && IsByte(b) && IsByte(c) && IsByte(d) && IsByte(e) && IsByte(f) && IsByte(g) && IsByte(h)
    ensures X(Pack(a, b, c, d), Pack(e, f, g, h)) == Pack(X(a, e), X(b, f), X(c, g), X(d, h))
    ensures IsByte(X(a, e)) && IsByte(X(b, f)) && IsByte(X(c, g)) && IsByte(X(d, h))
  {
    hide Pack, IsByte;
    RawPackXor(a, b, c, d, e, f, g, h);
    ByteXor(a, e); ByteXor(b, f); ByteXor(c, g); ByteXor(d, h);
  }

  /** Four table words added up, byte by byte. */
  lemma Spread(p: Word, q: Word, r: Word, t: Word)
    requires IsByte(p) && IsByte(q) && IsByte(r) && IsByte(t)
    ensures X(X(X(Pack(p, p, p, 0), Pack(0, q, q, q)), Pack(r, 0, r, r)), Pack(t, t, 0, t))
            == Pack(X(X(p, r), t), X(X(p, q), t), X(X(p, q), r), X(X(q, r), t))
    ensures IsByte(X(X(p, r), t)) && IsByte(X(X(p, q), t)) && IsByte(X(X(p, q), r)) && IsByte(X(X(q, r), t))
  {
    hide Pack, IsByte, X;
    ByteIsByte(p);
    XSelf(p);
    XSelf(q);
    XSelf(X(p, q));
    XSelf(X(X(p, q), r));
    PackXor(p, p, p, 0, 0, q, q, q);
    PackXor(p, X(p, q), X(p, q), q, r, 0, r, r);
    PackXor(X(p, r), X(p, q), X(X(p, q), r), X(q, r), t, t, 0, t);
  }

  /** A byte of the right output word: two S-box bytes occur in both summands and vanish. */
  lemma CommonBytesVanish(p: Word, q: Word, r: Word, t: Word, e: Word)
    ensures X(X(X(X(q, r), t), e), X(X(p, r), t)) == X(X(p, q), e)
  {
    hide X;
    var m := X(r, t);
    XAssoc(q, r, t);
    XAssoc(p, r, t);
    XComm(X(q, m), e);
    XAssoc(e, X(q, m), X(p, m));
    XComm(p, m);
    XCancel(q, m, p);
    XComm(q, p);
    XComm(e, X(p, q));
  }

  lemma XRotate(a: Word, b: Word, c: Word)
    ensures X(X(a, b), c) == X(X(c, a), b)
  {
    hide X;
    XComm(X(a, b), c);
    XAssoc(c, a, b);
  }

  /** The P function on the S-box outputs, against the rotate-and-add form. */
  lemma PWords(t1: Word, t2: Word, t3: Word, t4: Word, e: Word, f: Word, g: Word, h: Word)
    requires IsByte(t1) && IsByte(t2) && IsByte(t3) && IsByte(t4) && IsByte(e) && IsByte(f) && IsByte(g) && IsByte(h)
    ensures var a, b, c, d := X(X(t1, t3), t4), X(X(t1, t2), t4), X(X(t1, t2), t3), X(X(t2, t3), t4);
            var u, v := Pack(e, f, g, h), Pack(a, b, c, d);
            && X(u, v) == Pack(X(a, e), X(b, f), X(c, g), X(d, h))
            && X(X(Ror8(v), u), v) == Pack(X(X(t1, t2), e), X(X(t2, t3), f), X(X(t3, t4), g), X(X(t4, t1), h))
  {
    hide Pack, Ror8, IsByte, X;
    Spread(t1, t2, t3, t4);
    var a, b, c, d := X(X(t1, t3), t4), X(X(t1, t2), t4), X(X(t1, t2), t3), X(X(t2, t3), t4);
    PackRor(a, b, c, d);
    PackXor(e, f, g, h, a, b, c, d);
    XComm(e, a); XComm(f, b); XComm(g, c); XComm(h, d);
    PackXor(d, a, b, c, e, f, g, h);
    PackXor(X(d, e), X(a, f), X(b, g), X(c, h), a, b, c, d);
    CommonBytesVanish(t1, t2, t3, t4, e);
    XComm(t1, t3); XComm(t1, t2);
    CommonBytesVanish(t2, t3, t1, t4, f);
    XRotate(t1, t2, t4); XRotate(t1, t2, t3);
    CommonBytesVanish(t3, t4, t1, t2, g);
    XRotate(t2, t3, t4);
    CommonBytesVanish(t4, t1, t2, t3, h);
  }

  /** The table form of F is the P function applied to the S-boxes. */
  lemma TableF(s: Sboxes, x: Half)
    ensures F(s, x) == RfcF(s, x)
  {
    hide Pack, Byte, B3, B2, B1, B0, Ror8, IsByte, X;
    var t1, t2 := Byte(s.s1(B3(x.l))), Byte(s.s2(B2(x.l)));
    var t3, t4 := Byte(s.s3(B1(x.l))), Byte(s.s4(B0(x.l)));
    var t5, t6 := Byte(s.s2(B3(x.r))), Byte(s.s3(B2(x.r)));
    var t7, t8 := Byte(s.s4(B1(x.r))), Byte(s.s1(B0(x.r)));
    ByteIsByte(s.s1(B3(x.l))); ByteIsByte(s.s2(B2(x.l)));
    ByteIsByte(s.s3(B1(x.l))); ByteIsByte(s.s4(B0(x.l)));
    ByteIsByte(s.s2(B3(x.r))); ByteIsByte(s.s3(B2(x.r)));
    ByteIsByte(s.s4(B1(x.r))); ByteIsByte(s.s1(B0(x.r)));
    Spread(t8, t5, t6, t7);
    Spread(t1, t2, t3, t4);
    PWords(t1, t2, t3, t4, X(X(t8, t6), t7), X(X(t8, t5), t7), X(X(t8, t5), t6), X(X(t5, t6), t7));
  }

  // ----- halves -----

  lemma XorComm(a: Half, b: Half)
    ensures Xor(a, b) == Xor(b, a)
  {
    hide X;
    XComm(a.l, b.l);
    XComm(a.r, b.r);
  }

  lemma XorAssoc(a: Half, b: Half, c: Half)
    ensures Xor(Xor(a, b), c) == Xor(a, Xor(b, c))
  {
    hide X;
    XAssoc(a.l, b.l, c.l);
    XAssoc(a.r, b.r, c.r);
  }

  lemma XorCancel(a: Half, b: Half, c: Half)
    ensures Xor(Xor(a, b), Xor(b, c)) == Xor(a, c)
    ensures Xor(Xor(a, b), b) == a
  {
    hide X;
    XCancel(a.l, b.l, c.l);
    XCancel(a.r, b.r, c.r);
    XAssoc(a.l, b.l, b.l);
    XAssoc(a.r, b.r, b.r);
    XSelf(a.l); XSelf(b.l); XSelf(a.r); XSelf(b.r);
  }

  /** The inverse of the last half of the P function, applied to a round key. */
  function PInv(k: Half): Half {
    var dw := Rol8(X(k.l, k.r));
    Half(dw, X(k.l, dw))
  }

  lemma Ror8Xor(a: Word, b: Word)
    ensures Ror8(X(a, b)) == X(Ror8(a), Ror8(b))
  {
    hide Ror8;
    RawRor8Xor(a, b);
  }

  lemma InnerRight(u: Word, v: Word, dw: Word, kl: Word)
    ensures X(X(u, X(v, dw)), X(kl, dw)) == X(X(u, v), kl)
  {
    hide X;
    XAssoc(u, v, dw);
    XComm(kl, dw);
    XCancel(X(u, v), dw, kl);
  }

  lemma RoundWords(u: Word, v: Word, kl: Word, kr: Word, yl: Word, yr: Word)
    ensures var dw := Rol8(X(kl, kr));
            var il := X(v, dw);
            var ir := X(X(u, il), X(kl, dw));
            && X(yl, ir) == X(X(yl, X(u, v)), kl)
            && X(X(yr, Ror8(il)), ir) == X(X(yr, X(X(Ror8(v), u), v)), kr)
  {
    hide X, Ror8, Rol8;
    var dw := Rol8(X(kl, kr));
    var il := X(v, dw);
    InnerRight(u, v, dw, kl);
    XAssoc(yl, X(u, v), kl);
    Ror8Xor(v, dw);
    Ror8Rol8(X(kl, kr));
    var w, p := Ror8(v), X(u, v);
    XAssoc(w, u, v);
    calc {
      X(X(yr, X(w, X(kl, kr))), X(p, kl));
      { XAssoc(w, kl, kr); XComm(X(w, kl), kr); XComm(w, kl); }
      X(X(yr, X(kr, X(kl, w))), X(p, kl));
      { XAssoc(kr, kl, w); XComm(X(kr, kl), w); }
      X(X(yr, X(w, X(kr, kl))), X(p, kl));
      { XAssoc(w, kr, kl); XAssoc(yr, X(w, kr), kl); XComm(p, kl); }
      X(X(X(yr, X(w, kr)), kl), X(kl, p));
      { XCancel(X(yr, X(w, kr)), kl, p); }
      X(X(yr, X(w, kr)), p);
      { XAssoc(yr, X(w, kr), p); XAssoc(w, kr, p); XComm(kr, p); XAssoc(w, p, kr); }
      X(yr, X(X(w, p), kr));
      { XAssoc(yr, X(w, p), kr); }
      X(X(yr, X(w, p)), kr);
    }
  }

  /** A round with a transformed key adds the plain key behind the F function. */
  lemma RoundAddsKey(s: Sboxes, x: Half, k: Half, y: Half)
    ensures RoundSM(s, x, PInv(k), y) == Xor(Xor(y, F(s, x)), k)
  {
    hide LookupRight, LookupLeft, Ror8, Rol8, X;
    RoundWords(LookupRight(s, x.r), LookupLeft(s, x.l), k.l, k.r, y.l, y.r);
  }

  // ----- the key-dependent linear maps -----

  /** How a constant travels through FLINV, and backwards through FL. */
  function G(c: Half, k: Half): Half {
    var l := X(c.l, AndNot(c.r, k.r));
    Half(l, X(c.r, Rol1(And(l, k.l))))
  }

  lemma Rol1Xor(a: Word, b: Word)
    ensures Rol1(X(a, b)) == X(Rol1(a), Rol1(b))
  {
    hide Rol1;
    RawRol1Xor(a, b);
  }

  lemma RolAnd(a: Word, b: Word, k: Word)
    ensures Rol1(And(X(a, b), k)) == X(Rol1(And(a, k)), Rol1(And(b, k)))
  {
    hide Rol1, And, X;
    AndXor(a, b, k);
    Rol1Xor(And(a, k), And(b, k));
  }

  lemma Mix(a: Word, b: Word, o: Word, n: Word)
    ensures X(X(a, b), X(o, n)) == X(X(a, o), X(b, n))
  {
    hide X;
    XAssoc(a, b, X(o, n));
    XAssoc(b, o, n);
    XComm(b, o);
    XAssoc(o, b, n);
    XAssoc(a, o, X(b, n));
  }

  lemma MixCancel(a: Word, b: Word, o: Word, n: Word)
    ensures X(X(a, X(b, n)), X(o, n)) == X(X(a, o), b)
  {
    hide X;
    Mix(a, X(b, n), o, n);
    XAssoc(b, n, n);
    XSelf(n);
    XSelf(b);
  }

  lemma FLAffine(x: Half, c: Half, k: Half)
    ensures FL(Xor(x, G(c, k)), k) == Xor(FL(x, k), c)
  {
    hide X, And, Or, AndNot, Rol1;
    var g := G(c, k);
    var r := X(x.r, Rol1(And(x.l, k.l)));
    RolAnd(x.l, g.l, k.l);
    MixCancel(x.r, c.r, Rol1(And(x.l, k.l)), Rol1(And(g.l, k.l)));
    OrXor(r, c.r, k.r);
    MixCancel(x.l, c.l, Or(r, k.r), AndNot(c.r, k.r));
  }

  lemma FLInvAffine(y: Half, c: Half, k: Half)
    ensures FLInv(Xor(y, c), k) == Xor(FLInv(y, k), G(c, k))
  {
    hide X, And, Or, AndNot, Rol1;
    var g := G(c, k);
    var l := X(y.l, Or(y.r, k.r));
    OrXor(y.r, c.r, k.r);
    Mix(y.l, c.l, Or(y.r, k.r), AndNot(c.r, k.r));
    RolAnd(l, g.l, k.l);
    Mix(y.r, c.r, Rol1(And(l, k.l)), Rol1(And(g.l, k.l)));
  }

  lemma GLinear(a: Half, b: Half, k: Half)
    ensures G(Xor(a, b), k) == Xor(G(a, k), G(b, k))
  {
    hide X, And, Or, AndNot, Rol1;
    OrXor(a.r, b.r, k.r);
    Mix(a.l, b.l, AndNot(a.r, k.r), AndNot(b.r, k.r));
    RolAnd(G(a, k).l, G(b, k).l, k.l);
    Mix(a.r, b.r, Rol1(And(G(a, k).l, k.l)), Rol1(And(G(b, k).l, k.l)));
  }

  lemma FLInverse(x: Half, k: Half)
    ensures FLInv(FL(x, k), k) == x && FL(FLInv(x, k), k) == x
  {
    hide X, And, Or, AndNot, Rol1;
    var f, g := FL(x, k), FLInv(x, k);
    WordCancel(x.l, Or(f.r, k.r));
    WordCancel(x.r, Rol1(And(x.l, k.l)));
    WordCancel(x.l, Or(x.r, k.r));
    WordCancel(x.r, Rol1(And(g.l, k.l)));
  }

  lemma WordCancel(a: Word, b: Word)
    ensures X(X(a, b), b) == a
  {
    hide X;
    XAssoc(a, b, b);
    XSelf(b);
    XSelf(a);
  }

  // ----- the table of subkeys -----

  /** The six round keys at `i + 2` and on: each is the sum of the plain keys around it, the
      outer ones reaching into `z` before the group and `u` behind it. */
  ghost predicate GroupKeys(k: seq<Half>, t: seq<Half>, i: nat, z: Half, u: Half)
    requires i + 8 <= |k| && i + 8 <= |t|
  {
    && t[i + 2] == PInv(Xor(z, k[i + 3]))
    && t[i + 3] == PInv(Xor(k[i + 2], k[i + 4]))
    && t[i + 4] == PInv(Xor(k[i + 3], k[i + 5]))
    && t[i + 5] == PInv(Xor(k[i + 4], k[i + 6]))
    && t[i + 6] == PInv(Xor(k[i + 5], k[i + 7]))
    && t[i + 7] == PInv(Xor(k[i + 6], u))
  }

  /** What the key setup leaves in the table: the closed form in which the absorbed whitening
      keys have cancelled out. */
  ghost predicate IsTable(k: seq<Half>, t: seq<Half>, max: nat)
    requires (max == 24 || max == 32) && |k| == |t| == max + 2
  {
    && t[0] == Xor(k[0], k[2]) && t[max] == Xor(k[max], k[max - 1])
    && t[8] == k[8] && t[9] == k[9] && t[16] == k[16] && t[17] == k[17]
    && GroupKeys(k, t, 0, k[1], G(k[10], k[8]))
    && GroupKeys(k, t, 8, G(k[7], k[9]), G(k[18], k[16]))
    && GroupKeys(k, t, 16, G(k[15], k[17]), if max == 32 then G(k[26], k[24]) else k[25])
    && (max == 32 ==> t[24] == k[24] && t[25] == k[25] && GroupKeys(k, t, 24, G(k[23], k[25]), k[33]))
  }

  // ----- equivalence -----

  /** One round: the pending key `k` on the left is used up, `z` on the right becomes `k'`. */
  lemma RoundStep(s: Sboxes, d1: Half, d2: Half, k: Half, z: Half, k': Half)
    ensures RoundSM(s, Xor(d1, k), PInv(Xor(z, k')), Xor(d2, z)) == Xor(Xor(d2, RfcF(s, Xor(d1, k))), k')
  {
    hide Xor, F, RfcF, PInv, RoundSM;
    var f := RfcF(s, Xor(d1, k));
    TableF(s, Xor(d1, k));
    RoundAddsKey(s, Xor(d1, k), Xor(z, k'), Xor(d2, z));
    XorAssoc(d2, z, f);
    XorComm(z, f);
    XorAssoc(d2, f, z);
    XorCancel(Xor(d2, f), z, k');
  }

  /** Six rounds carry the pending keys `k[i + 2]` and `z` to `u` and `k[i + 7]`. */
  lemma RoundsEquiv(s: Sboxes, k: seq<Half>, t: seq<Half>, i: nat, z: Half, u: Half, d: Block)
    requires i + 8 <= |k| && i + 8 <= |t| && GroupKeys(k, t, i, z, u)
    ensures var r := RfcRounds(s, k, i, d);
            Rounds(s, t, i, Block(Xor(d.a, k[i + 2]), Xor(d.b, z))) == Block(Xor(r.a, u), Xor(r.b, k[i + 7]))
  {
    hide Xor, RfcF, PInv, RoundSM;
    var d2 := Xor(d.b, RfcF(s, Xor(d.a, k[i + 2])));
    var d1 := Xor(d.a, RfcF(s, Xor(d2, k[i + 3])));
    var e2 := Xor(d2, RfcF(s, Xor(d1, k[i + 4])));
    var e1 := Xor(d1, RfcF(s, Xor(e2, k[i + 5])));
    var f2 := Xor(e2, RfcF(s, Xor(e1, k[i + 6])));
    RoundStep(s, d.a, d.b, k[i + 2], z, k[i + 3]);
    RoundStep(s, d2, d.a, k[i + 3], k[i + 2], k[i + 4]);
    RoundStep(s, d1, d2, k[i + 4], k[i + 3], k[i + 5]);
    RoundStep(s, e2, d1, k[i + 5], k[i + 4], k[i + 6]);
    RoundStep(s, e1, e2, k[i + 6], k[i + 5], k[i + 7]);
    RoundStep(s, f2, e1, k[i + 7], k[i + 6], u);
  }

  lemma FlsEquiv(k: seq<Half>, i: nat, d: Block, a: Half, b: Half)
    requires i + 1 < |k|
    ensures var r := RfcFls(k, i, d);
            Fls(k[i], k[i + 1], Block(Xor(d.a, G(a, k[i])), Xor(d.b, b))) ==
              Block(Xor(r.a, a), Xor(r.b, G(b, k[i + 1])))
  {
    hide Xor, FL, FLInv, G;
    FLAffine(d.a, a, k[i]);
    FLInvAffine(d.b, b, k[i + 1]);
  }

  /** For all subkeys and blocks and both lengths, the kernel's cipher on its rewritten table
      is the cipher of RFC 3713 on the plain subkeys. */
  lemma EncryptIsRfc(s: Sboxes, k: seq<Half>, t: seq<Half>, max: nat, m: Block)
    requires (max == 24 || max == 32) && |k| == |t| == max + 2 && IsTable(k, t, max)
    ensures Encrypt(s, t, max, m) == RfcEncrypt(s, k, max, m)
  {
    hide Xor, FL, FLInv, G, RfcRounds, Rounds, RfcFls, Fls, GroupKeys;
    var d0 := Block(Xor(m.a, k[0]), Xor(m.b, k[1]));
    XorAssoc(m.a, k[0], k[2]);
    XorCancel(m.b, k[1], k[1]);
    RoundsEquiv(s, k, t, 0, k[1], G(k[10], k[8]), d0);
    var d1 := RfcRounds(s, k, 0, d0);
    FlsEquiv(k, 8, d1, k[10], k[7]);
    var f1 := RfcFls(k, 8, d1);
    RoundsEquiv(s, k, t, 8, G(k[7], k[9]), G(k[18], k[16]), f1);
    var d2 := RfcRounds(s, k, 8, f1);
    FlsEquiv(k, 16, d2, k[18], k[15]);
    var f2 := RfcFls(k, 16, d2);
    RoundsEquiv(s, k, t, 16, G(k[15], k[17]), if max == 32 then G(k[26], k[24]) else k[25], f2);
    var d3 := RfcRounds(s, k, 16, f2);
    if max == 32 {
      FlsEquiv(k, 24, d3, k[26], k[23]);
      var f3 := RfcFls(k, 24, d3);
      RoundsEquiv(s, k, t, 24, G(k[23], k[25]), k[33], f3);
      FinalKey(RfcRounds(s, k, 24, f3).b, k[31], k[32]);
    } else {
      FinalKey(d3.b, k[23], k[24]);
    }
  }

  lemma FinalKey(d: Half, a: Half, b: Half)
    ensures Xor(Xor(d, a), Xor(b, a)) == Xor(d, b)
  {
    hide Xor;
    XorComm(b, a);
    XorCancel(d, a, b);
  }

  // ----- decryption -----

  /** What a round adds to the right half. */
  function RoundTerm(s: Sboxes, x: Half, k: Half): Half {
    var il := X(LookupLeft(s, x.l), k.l);
    var ir := X(X(LookupRight(s, x.r), il), k.r);
    Half(ir, X(Ror8(il), ir))
  }

  lemma RoundTwice(s: Sboxes, x: Half, k: Half, y: Half)
    ensures RoundSM(s, x, k, RoundSM(s, x, k, y)) == y
  {
    hide X, Ror8, LookupLeft, LookupRight;
    var f := RoundTerm(s, x, k);
    var y1 := RoundSM(s, x, k, y);
    XAssoc(y.r, Ror8(X(LookupLeft(s, x.l), k.l)), f.l);
    XAssoc(y1.r, Ror8(X(LookupLeft(s, x.l), k.l)), f.l);
    WordCancel(y.l, f.l);
    WordCancel(y.r, f.r);
  }

  function Swap(d: Block): Block { Block(d.b, d.a) }

  lemma RoundsUndone(s: Sboxes, t: seq<Half>, i: nat, d: Block)
    requires i + 8 <= |t|
    ensures RoundsBack(s, t, i, Swap(Rounds(s, t, i, d))) == Swap(d)
  {
    hide RoundSM;
    var d2 := RoundSM(s, d.a, t[i + 2], d.b);
    var d1 := RoundSM(s, d2, t[i + 3], d.a);
    var e2 := RoundSM(s, d1, t[i + 4], d2);
    var e1 := RoundSM(s, e2, t[i + 5], d1);
    var f2 := RoundSM(s, e1, t[i + 6], e2);
    RoundTwice(s, f2, t[i + 7], e1);
    RoundTwice(s, e1, t[i + 6], e2);
    RoundTwice(s, e2, t[i + 5], d1);
    RoundTwice(s, d1, t[i + 4], d2);
    RoundTwice(s, d2, t[i + 3], d.a);
    RoundTwice(s, d.a, t[i + 2], d.b);
  }

  lemma FlsUndone(ka: Half, kb: Half, d: Block)
    ensures Fls(kb, ka, Swap(Fls(ka, kb, d))) == Swap(d)
  {
    hide FL, FLInv;
    FLInverse(d.a, ka);
    FLInverse(d.b, kb);
  }

  /** Decryption with the same table undoes encryption, whatever the table holds. */
  lemma DecryptUndoes(s: Sboxes, t: seq<Half>, max: nat, m: Block)
    requires (max == 24 || max == 32) && |t| == max + 2
    ensures Decrypt(s, t, max, Encrypt(s, t, max, m)) == m
  {
    hide Xor, Fls, Rounds, RoundsBack;
    var d0 := Block(Xor(m.a, t[0]), m.b);
    var d1 := Rounds(s, t, 0, d0);
    var f1 := Fls(t[8], t[9], d1);
    var d2 := Rounds(s, t, 8, f1);
    var f2 := Fls(t[16], t[17], d2);
    var d3 := Rounds(s, t, 16, f2);
    XorCancel(m.a, t[0], t[0]);
    RoundsUndone(s, t, 0, d0);
    FlsUndone(t[8], t[9], d1);
    RoundsUndone(s, t, 8, f1);
    FlsUndone(t[16], t[17], d2);
    RoundsUndone(s, t, 16, f2);
    if max == 32 {
      var f3 := Fls(t[24], t[25], d3);
      FlsUndone(t[24], t[25], d3);
      RoundsUndone(s, t, 24, f3);
      XorCancel(Rounds(s, t, 24, f3).b, t[max], t[max]);
    } else {
      XorCancel(d3.b, t[max], t[max]);
    }
  }

  /** So the kernel's decryption inverts the cipher of RFC 3713. */
  lemma DecryptInvertsRfc(s: Sboxes, k: seq<Half>, t: seq<Half>, max: nat, m: Block)
    requires (max == 24 || max == 32) && |k| == |t| == max + 2 && IsTable(k, t, max)
    ensures Decrypt(s, t, max, RfcEncrypt(s, k, max, m)) == m
  {
    hide IsTable, Encrypt, Decrypt, RfcEncrypt;
    EncryptIsRfc(s, k, t, max, m);
    DecryptUndoes(s, t, max, m);
  }
}
