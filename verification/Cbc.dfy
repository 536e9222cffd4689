/** Cipher block chaining (section 6.2 of NIST SP 800-38A) over any block cipher, on byte buffers:
    forward and backward loops, in place and from one buffer to another. */
module Cbc {

  type Bytes = seq<bv8>

  datatype Cipher = Cipher(bsize: nat, enc: Bytes -> Bytes, dec: Bytes -> Bytes)

  /** `enc` and `dec` map blocks to blocks, and `dec` inverts `enc`. */
  ghost predicate Good(c: Cipher) {
    && c.bsize > 0
    && (forall x {:trigger c.enc(x)} :: |x| == c.bsize ==> |c.enc(x)| == c.bsize && c.dec(c.enc(x)) == x)
    && (forall x {:trigger c.dec(x)} :: |x| == c.bsize ==> |c.dec(x)| == c.bsize)
  }

  ghost function Enc(c: Cipher, x: Bytes): (r: Bytes)
    requires Good(c) && |x| == c.bsize
    ensures |r| == c.bsize
  {
    c.enc(x)
  }

  ghost function Dec(c: Cipher, x: Bytes): (r: Bytes)
    requires Good(c) && |x| == c.bsize
    ensures |r| == c.bsize
  {
    c.dec(x)
  }

  lemma DecEnc(c: Cipher, x: Bytes)
    requires Good(c) && |x| == c.bsize
    ensures Dec(c, Enc(c, x)) == x
  {}

  function Xor(a: Bytes, b: Bytes): (r: Bytes)
    requires |a| == |b|
    ensures |r| == |a|
  {
    seq(|a|, i requires 0 <= i < |a| => a[i] ^ b[i])
  }

  lemma XorBytes(a: bv8, b: bv8)
    ensures (a ^ b) ^ a == b && a ^ b == b ^ a
  {}

  lemma XorUndone(a: Bytes, b: Bytes)
    requires |a| == |b|
    ensures Xor(Xor(a, b), a) == b && Xor(a, b) == Xor(b, a)
  {
    forall i | 0 <= i < |a| ensures (a[i] ^ b[i]) ^ a[i] == b[i] && a[i] ^ b[i] == b[i] ^ a[i] { XorBytes(a[i], b[i]); }
  }

  /** What is left of `n` bytes behind the last whole block. */
  function Rest(n: nat, b: nat): (r: nat)
    requires b > 0
    ensures r < b && r <= n
  {
    if n < b then n else Rest(n - b, b)
  }

  // ----- the mode -----

  /** The ciphertext of the whole blocks of `p`. */
  ghost function Encrypted(c: Cipher, iv: Bytes, p: Bytes): (r: Bytes)
    requires Good(c) && |iv| == c.bsize
    ensures |r| == |p| - Rest(|p|, c.bsize)
    decreases |p|
  {
    if |p| < c.bsize then []
    else
      var b := Enc(c, Xor(iv, p[..c.bsize]));
      b + Encrypted(c, b, p[c.bsize..])
  }

  /** The chaining value behind those blocks. */
  ghost function EncryptedIv(c: Cipher, iv: Bytes, p: Bytes): (r: Bytes)
    requires Good(c) && |iv| == c.bsize
    ensures |r| == c.bsize
    decreases |p|
  {
    if |p| < c.bsize then iv else EncryptedIv(c, Enc(c, Xor(iv, p[..c.bsize])), p[c.bsize..])
  }

  ghost function Decrypted(c: Cipher, iv: Bytes, s: Bytes): (r: Bytes)
    requires Good(c) && |iv| == c.bsize
    ensures |r| == |s| - Rest(|s|, c.bsize)
    decreases |s|
  {
    if |s| < c.bsize then []
    else
      Xor(Dec(c, s[..c.bsize]), iv) + Decrypted(c, s[..c.bsize], s[c.bsize..])
  }

  ghost function DecryptedIv(c: Cipher, iv: Bytes, s: Bytes): (r: Bytes)
    requires Good(c) && |iv| == c.bsize
    ensures |r| == c.bsize
    decreases |s|
  {
    if |s| < c.bsize then iv else DecryptedIv(c, s[..c.bsize], s[c.bsize..])
  }

  lemma Concat(a: Bytes, b: Bytes, c: Bytes)
    ensures a + (b + c) == (a + b) + c
  {}

  lemma Slices(p: Bytes, q: Bytes, n: nat)
    requires n <= |p|
    ensures (p + q)[..n] == p[..n] && (p + q)[n..] == p[n..] + q && p == p[..n] + p[n..]
  {}

  lemma DecryptedStep(c: Cipher, iv: Bytes, b: Bytes, s: Bytes)
    requires Good(c) && |iv| == c.bsize == |b|
    ensures Decrypted(c, iv, b + s) == Xor(Dec(c, b), iv) + Decrypted(c, b, s)
    ensures DecryptedIv(c, iv, b + s) == DecryptedIv(c, b, s)
  {
    assert (b + s)[..c.bsize] == b && (b + s)[c.bsize..] == s;
  }

  lemma EncryptedStep(c: Cipher, iv: Bytes, b: Bytes, p: Bytes)
    requires Good(c) && |iv| == c.bsize == |b|
    ensures var e := Enc(c, Xor(iv, b));
            && Encrypted(c, iv, b + p) == e + Encrypted(c, e, p)
            && EncryptedIv(c, iv, b + p) == EncryptedIv(c, e, p)
  {
    assert (b + p)[..c.bsize] == b && (b + p)[c.bsize..] == p;
  }

  lemma Short(c: Cipher, iv: Bytes, p: Bytes)
    requires Good(c) && |iv| == c.bsize > |p|
    ensures Encrypted(c, iv, p) == [] == Decrypted(c, iv, p)
    ensures EncryptedIv(c, iv, p) == iv == DecryptedIv(c, iv, p)
  {}

  /** Decryption undoes encryption, block by block, and both end with the same chaining value. */
  lemma {:induction false} RoundTrip(c: Cipher, iv: Bytes, p: Bytes)
    requires Good(c) && |iv| == c.bsize && Rest(|p|, c.bsize) == 0
    ensures Decrypted(c, iv, Encrypted(c, iv, p)) == p
    ensures DecryptedIv(c, iv, Encrypted(c, iv, p)) == EncryptedIv(c, iv, p)
    decreases |p|
  {
    assert c.bsize > 0;
    hide Xor, Good, Enc, Dec, Encrypted, EncryptedIv, Decrypted, DecryptedIv;
    if |p| < c.bsize {
      Short(c, iv, p);
      Short(c, iv, []);
    } else {
      var head, rest := p[..c.bsize], p[c.bsize..];
      var b := Enc(c, Xor(iv, head));
      assert p == head + rest;
      EncryptedStep(c, iv, head, rest);
      DecryptedStep(c, iv, b, Encrypted(c, b, rest));
      RoundTrip(c, b, rest);
      DecEnc(c, Xor(iv, head));
      XorUndone(iv, head);
    }
  }

  /** Work may be split at any block boundary if the chaining value is carried over. */
  lemma {:induction false} EncryptSplit(c: Cipher, iv: Bytes, p: Bytes, q: Bytes)
    requires Good(c) && |iv| == c.bsize && Rest(|p|, c.bsize) == 0
    ensures Encrypted(c, iv, p + q) == Encrypted(c, iv, p) + Encrypted(c, EncryptedIv(c, iv, p), q)
    ensures EncryptedIv(c, iv, p + q) == EncryptedIv(c, EncryptedIv(c, iv, p), q)
    decreases |p|
  {
    assert c.bsize > 0;
    hide Xor, Good, Enc;
    if |p| < c.bsize {
      assert p + q == q;
    } else {
      var b, rest := Enc(c, Xor(iv, p[..c.bsize])), p[c.bsize..];
      Slices(p, q, c.bsize);
      EncryptSplit(c, b, rest, q);
      Concat(b, Encrypted(c, b, rest), Encrypted(c, EncryptedIv(c, b, rest), q));
    }
  }

  lemma {:induction false} DecryptSplit(c: Cipher, iv: Bytes, p: Bytes, q: Bytes)
    requires Good(c) && |iv| == c.bsize && Rest(|p|, c.bsize) == 0
    ensures Decrypted(c, iv, p + q) == Decrypted(c, iv, p) + Decrypted(c, DecryptedIv(c, iv, p), q)
    ensures DecryptedIv(c, iv, p + q) == DecryptedIv(c, DecryptedIv(c, iv, p), q)
    decreases |p|
  {
    assert c.bsize > 0;
    hide Xor, Good, Dec;
    if |p| < c.bsize {
      assert p + q == q;
    } else {
      var b, rest := p[..c.bsize], p[c.bsize..];
      Slices(p, q, c.bsize);
      DecryptSplit(c, b, rest, q);
      Concat(Xor(Dec(c, b), iv), Decrypted(c, b, rest), Decrypted(c, DecryptedIv(c, b, rest), q));
    }
  }

  // ----- block by block -----

  /** The block with number `j`. */
  function BlockAt(n: nat, s: Bytes, j: nat): (b: Bytes)
    requires Mul(j, n) + n <= |s|
    ensures |b| == n
  {
    s[Mul(j, n)..Mul(j, n) + n]
  }

  function Mul(j: nat, n: nat): nat { j * n }

  lemma MulStep(j: nat, n: nat)
    ensures Mul(0, n) == 0 && Mul(j + 1, n) == Mul(j, n) + n
  {}

  /** Byte by byte the sum of two blocks. */
  predicate IsSum(x: Bytes, a: Bytes, b: Bytes) {
    |x| == |a| == |b| && forall i :: 0 <= i < |x| ==> x[i] == a[i] ^ b[i]
  }

  lemma XorIsSum(a: Bytes, b: Bytes)
    requires |a| == |b|
    ensures IsSum(Xor(a, b), a, b) && IsSum(Xor(a, b), b, a) && Xor(a, b) == Xor(b, a)
  {
    hide Xor;
    XorUndone(a, b);
    RawSum(a, b);
    RawSum(b, a);
  }

  lemma RawSum(a: Bytes, b: Bytes)
    requires |a| == |b|
    ensures IsSum(Xor(a, b), a, b)
  {}

  /** The ciphertext block before number `j`, or the initial value. */
  function Previous(n: nat, iv: Bytes, s: Bytes, j: nat): Bytes
    requires j > 0 ==> Mul(j - 1, n) + n <= |s|
  {
    if j == 0 then iv else BlockAt(n, s, j - 1)
  }

  lemma BlockTail(n: nat, b: Bytes, s: Bytes, j: nat)
    requires |b| == n && Mul(j, n) + n <= |s|
    ensures Mul(j + 1, n) + n <= |b + s| && BlockAt(n, b + s, j + 1) == BlockAt(n, s, j)
  {
    MulStep(j, n);
  }

  lemma BlockHead(n: nat, b: Bytes, s: Bytes)
    requires |b| == n
    ensures Mul(0, n) + n <= |b + s| && BlockAt(n, b + s, 0) == b
  {
    MulStep(0, n);
  }

  /** Every block of the ciphertext is the cipher applied to the sum of the plaintext block and the
      ciphertext block before it, or the initial value for the first. */
  lemma {:induction false} EncryptedAt(c: Cipher, iv: Bytes, p: Bytes, j: nat) returns (x: Bytes)
    requires Good(c) && |iv| == c.bsize && Mul(j, c.bsize) + c.bsize <= |p|
    ensures var r := Encrypted(c, iv, p);
            && Mul(j, c.bsize) + c.bsize <= |r| && (j > 0 ==> Mul(j - 1, c.bsize) + c.bsize <= |r|)
            && IsSum(x, BlockAt(c.bsize, p, j), Previous(c.bsize, iv, r, j))
            && BlockAt(c.bsize, r, j) == c.enc(x)
    decreases j
  {
    hide Encrypted, EncryptedIv, BlockAt, Rest, Xor, IsSum, Mul;
    var n := c.bsize;
    MulStep(0, n);
    var b, rest := p[..n], p[n..];
    assert p == b + rest;
    EncryptedStep(c, iv, b, rest);
    var e := Enc(c, Xor(iv, b));
    var tail := Encrypted(c, e, rest);
    if j == 0 {
      BlockHead(n, b, rest);
      BlockHead(n, e, tail);
      XorIsSum(b, iv);
      x := Xor(b, iv);
    } else {
      MulStep(j - 1, n);
      x := EncryptedAt(c, e, rest, j - 1);
      BlockTail(n, b, rest, j - 1);
      BlockTail(n, e, tail, j - 1);
      if j == 1 {
        BlockHead(n, e, tail);
      } else {
        MulStep(j - 2, n);
        BlockTail(n, e, tail, j - 2);
      }
    }
  }

  /** Every block of the plaintext is the sum of the inverse cipher applied to the ciphertext block and the
      ciphertext block before it, or the initial value for the first. */
  lemma {:induction false} DecryptedAt(c: Cipher, iv: Bytes, s: Bytes, j: nat)
    requires Good(c) && |iv| == c.bsize && Mul(j, c.bsize) + c.bsize <= |s|
    ensures var r := Decrypted(c, iv, s);
            && Mul(j, c.bsize) + c.bsize <= |r| && (j > 0 ==> Mul(j - 1, c.bsize) + c.bsize <= |s|)
            && IsSum(BlockAt(c.bsize, r, j), c.dec(BlockAt(c.bsize, s, j)), Previous(c.bsize, iv, s, j))
    decreases j
  {
    hide Decrypted, DecryptedIv, BlockAt, Rest, Xor, IsSum, Mul;
    var n := c.bsize;
    MulStep(0, n);
    var b, rest := s[..n], s[n..];
    assert s == b + rest;
    DecryptedStep(c, iv, b, rest);
    var e := Xor(Dec(c, b), iv);
    var tail := Decrypted(c, b, rest);
    if j == 0 {
      BlockHead(n, b, rest);
      BlockHead(n, e, tail);
      XorIsSum(Dec(c, b), iv);
    } else {
      MulStep(j - 1, n);
      DecryptedAt(c, b, rest, j - 1);
      BlockTail(n, b, rest, j - 1);
      BlockTail(n, e, tail, j - 1);
      if j == 1 {
        BlockHead(n, b, rest);
      } else {
        MulStep(j - 2, n);
        BlockTail(n, b, rest, j - 2);
      }
    }
  }

  // ----- work in chunks -----

  function Joined(chunks: seq<Bytes>): Bytes {
    if |chunks| == 0 then [] else chunks[0] + Joined(chunks[1..])
  }

  predicate WholeBlocks(chunks: seq<Bytes>, b: nat)
    requires b > 0
  {
    forall i :: 0 <= i < |chunks| ==> Rest(|chunks[i]|, b) == 0
  }

  /** `crypto_cbc_encrypt`: chunk after chunk, with the chaining value carried in between. */
  ghost function EncryptedChunks(c: Cipher, iv: Bytes, chunks: seq<Bytes>): Bytes
    requires Good(c) && |iv| == c.bsize
    decreases |chunks|
  {
    if |chunks| == 0 then []
    else Encrypted(c, iv, chunks[0]) + EncryptedChunks(c, EncryptedIv(c, iv, chunks[0]), chunks[1..])
  }

  ghost function DecryptedChunks(c: Cipher, iv: Bytes, chunks: seq<Bytes>): Bytes
    requires Good(c) && |iv| == c.bsize
    decreases |chunks|
  {
    if |chunks| == 0 then []
    else Decrypted(c, iv, chunks[0]) + DecryptedChunks(c, DecryptedIv(c, iv, chunks[0]), chunks[1..])
  }

  lemma {:induction false} RestSum(n: nat, m: nat, b: nat)
    requires b > 0 && Rest(n, b) == 0
    ensures Rest(n + m, b) == Rest(m, b)
  {
    if n >= b { RestSum(n - b, m, b); }
  }

  lemma {:induction false} JoinedWhole(chunks: seq<Bytes>, b: nat)
    requires b > 0 && WholeBlocks(chunks, b)
    ensures Rest(|Joined(chunks)|, b) == 0
  {
    if |chunks| > 0 {
      JoinedWhole(chunks[1..], b);
      RestSum(|chunks[0]|, |Joined(chunks[1..])|, b);
    }
  }

  lemma {:induction false} ChunksEncrypt(c: Cipher, iv: Bytes, chunks: seq<Bytes>)
    requires Good(c) && |iv| == c.bsize > 0 && WholeBlocks(chunks, c.bsize)
    ensures EncryptedChunks(c, iv, chunks) == Encrypted(c, iv, Joined(chunks))
    decreases |chunks|
  {
    hide Good, Rest, Encrypted, EncryptedIv;
    if |chunks| == 0 {
      Short(c, iv, []);
    } else {
      EncryptSplit(c, iv, chunks[0], Joined(chunks[1..]));
      ChunksEncrypt(c, EncryptedIv(c, iv, chunks[0]), chunks[1..]);
    }
  }

  lemma {:induction false} ChunksDecrypt(c: Cipher, iv: Bytes, chunks: seq<Bytes>)
    requires Good(c) && |iv| == c.bsize > 0 && WholeBlocks(chunks, c.bsize)
    ensures DecryptedChunks(c, iv, chunks) == Decrypted(c, iv, Joined(chunks))
    decreases |chunks|
  {
    hide Good, Rest, Decrypted, DecryptedIv;
    if |chunks| == 0 {
      Short(c, iv, []);
    } else {
      DecryptSplit(c, iv, chunks[0], Joined(chunks[1..]));
      ChunksDecrypt(c, DecryptedIv(c, iv, chunks[0]), chunks[1..]);
    }
  }

  /** However the plaintext and the ciphertext are cut into whole-block chunks, decrypting what was
      encrypted gives the plaintext back. */
  lemma ChunkedRoundTrip(c: Cipher, iv: Bytes, plain: seq<Bytes>, secret: seq<Bytes>)
    requires Good(c) && |iv| == c.bsize > 0 && WholeBlocks(plain, c.bsize) && WholeBlocks(secret, c.bsize)
    requires Joined(secret) == EncryptedChunks(c, iv, plain)
    ensures DecryptedChunks(c, iv, secret) == Joined(plain)
  {
    hide Good, Rest, Decrypted, DecryptedIv, Encrypted, EncryptedIv, Joined, EncryptedChunks, DecryptedChunks,
         WholeBlocks;
    ChunksEncrypt(c, iv, plain);
    ChunksDecrypt(c, iv, secret);
    JoinedWhole(plain, c.bsize);
    RoundTrip(c, iv, Joined(plain));
  }
}
