/** 32-bit words and the few bit-level facts the cipher rests on. */
module Words {

  type Word = bv32

  function X(a: Word, b: Word): Word { a ^ b }

  function And(a: Word, b: Word): Word { a & b }

  function Or(a: Word, b: Word): Word { a | b }

  function AndNot(a: Word, b: Word): Word { And(a, !b) }

  function Rol1(x: Word): Word { (x << 1) | (x >> 31) }

  function Rol8(x: Word): Word { (x << 8) | (x >> 24) }

  function Ror8(x: Word): Word { (x >> 8) | (x << 24) }

  function Byte(x: Word): Word { x & 0xff }

  /** The bytes of a word, from the most significant one down. */
  function B3(x: Word): Word { x >> 24 }

  function B2(x: Word): Word { Byte(x >> 16) }

  function B1(x: Word): Word { Byte(x >> 8) }

  function B0(x: Word): Word { Byte(x) }

  function Pack(a: Word, b: Word, c: Word, d: Word): Word { (a << 24) | (b << 16) | (c << 8) | d }

  predicate IsByte(x: Word) { Byte(x) == x }

  lemma XComm(a: Word, b: Word)
    ensures X(a, b) == X(b, a)
  {}

  lemma XAssoc(a: Word, b: Word, c: Word)
    ensures X(X(a, b), c) == X(a, X(b, c))
  {}

  lemma XSelf(a: Word)
    ensures X(a, a) == 0 && X(a, 0) == a && X(0, a) == a
  {}

  lemma RawPackXor(a: Word, b: Word, c: Word, d: Word, e: Word, f: Word, g: Word, h: Word)
    requires IsByte(a) && IsByte(b) && IsByte(c) && IsByte(d) && IsByte(e) && IsByte(f) && IsByte(g) && IsByte(h)
    ensures Pack(a, b, c, d) ^ Pack(e, f, g, h) == Pack(a ^ e, b ^ f, c ^ g, d ^ h)
  {}

  lemma ByteXor(a: Word, b: Word)
    requires IsByte(a) && IsByte(b)
    ensures IsByte(X(a, b))
  {}

  lemma ByteIsByte(a: Word)
    ensures IsByte(Byte(a)) && IsByte(0)
  {}

  lemma PackRor(a: Word, b: Word, c: Word, d: Word)
    requires IsByte(a) && IsByte(b) && IsByte(c) && IsByte(d)
    ensures Ror8(Pack(a, b, c, d)) == Pack(d, a, b, c)
  {}

  lemma RawRor8Xor(a: Word, b: Word)
    ensures Ror8(a ^ b) == Ror8(a) ^ Ror8(b)
  {}

  lemma Ror8Rol8(a: Word)
    ensures Ror8(Rol8(a)) == a
  {}

  lemma RawAndXor(a: Word, b: Word, k: Word)
    ensures And(a ^ b, k) == And(a, k) ^ And(b, k)
  {}

  lemma AndXor(a: Word, b: Word, k: Word)
    ensures And(X(a, b), k) == X(And(a, k), And(b, k))
  {
    hide And;
    RawAndXor(a, b, k);
  }

  lemma OrSplit(a: Word, k: Word)
    ensures Or(a, k) == X(AndNot(a, k), k)
  {}

  lemma OrXor(a: Word, b: Word, k: Word)
    ensures AndNot(X(a, b), k) == X(AndNot(a, k), AndNot(b, k))
    ensures Or(X(a, b), k) == X(Or(a, k), AndNot(b, k))
  {
    OrSplit(a, k);
    OrSplit(X(a, b), k);
    AndXor(a, b, !k);
    hide X, And, Or;
    XAssoc(AndNot(a, k), AndNot(b, k), k);
    XComm(AndNot(b, k), k);
    XAssoc(AndNot(a, k), k, AndNot(b, k));
  }

  lemma RawRol1Xor(a: Word, b: Word)
    ensures Rol1(a ^ b) == Rol1(a) ^ Rol1(b)
  {}
}
