/** The four loops of the CBC template on byte arrays, each proved against the mode. */
module CbcBuffers {
  import opened Cbc

  /** `s` with `b` written at `off`. */
  function Put(s: Bytes, off: nat, b: Bytes): (r: Bytes)
    requires off + |b| <= |s|
    ensures |r| == |s|
  {
    s[..off] + b + s[off + |b|..]
  }

  /** `memcpy`, and the way a cipher stores its output block. */
  method Store(a: array<bv8>, off: nat, b: Bytes)
    requires off + |b| <= a.Length
    modifies a
    ensures a[..] == Put(old(a[..]), off, b)
  {
    for i := 0 to |b|
      invariant a[..off] == old(a[..off]) && a[off..off + i] == b[..i] && a[off + i..] == old(a[off + i..])
    {
      a[off + i] := b[i];
    }
  }

  /** `crypto_xor`; the two ranges may lie in one buffer if they do not overlap. */
  method XorInto(a: array<bv8>, off: nat, b: array<bv8>, from: nat, n: nat)
    requires off + n <= a.Length && from + n <= b.Length
    requires a != b || off + n <= from || from + n <= off
    modifies a
    ensures a[..] == Put(old(a[..]), off, Xor(old(a[off..off + n]), old(b[from..from + n])))
  {
    for i := 0 to n
      invariant forall k :: off <= k < off + i ==> a[k] == old(a[k]) ^ old(b[from + (k - off)])
      invariant forall k :: 0 <= k < a.Length && !(off <= k < off + i) ==> a[k] == old(a[k])
    {
      a[off + i] := a[off + i] ^ b[from + i];
    }
    ghost var x := Xor(old(a[off..off + n]), old(b[from..from + n]));
    ghost var r := Put(old(a[..]), off, x);
    forall k | 0 <= k < a.Length ensures a[k] == r[k] {
      if off <= k < off + n { assert r[k] == x[k - off]; }
    }
  }

  lemma PutAround(s: Bytes, off: nat, b: Bytes)
    requires off + |b| <= |s|
    ensures Put(s, off, b)[..off + |b|] == s[..off] + b && Put(s, off, b)[off + |b|..] == s[off + |b|..]
    ensures Put(s, off, b)[..off] == s[..off] && Put(s, off, b)[off..off + |b|] == b
  {}

  lemma PutWhole(s: Bytes, b: Bytes)
    requires |b| == |s|
    ensures Put(s, 0, b) == b && s[..|b|] == s[0..|b|] == s
  {}

  lemma PutNothing(s: Bytes)
    ensures Put(s, 0, []) == s
  {}

  lemma PutMore(s: Bytes, out: Bytes, b: Bytes)
    requires |out| + |b| <= |s|
    ensures Put(Put(s, 0, out), |out|, b) == Put(s, 0, out + b)
  {}

  lemma PutTwice(s: Bytes, off: nat, x: Bytes, b: Bytes)
    requires off + |b| <= |s| && |x| == |b|
    ensures Put(Put(s, off, x), off, b) == Put(s, off, b)
  {}

  /** What lies behind the part written is still the original. */
  lemma PutBefore(s: Bytes, out: Bytes, i: nat, j: nat)
    requires |out| <= i <= j <= |s|
    ensures Put(s, 0, out)[i..j] == s[i..j]
  {}

  lemma SameSlice(s: Bytes, n: nat, i: nat, j: nat)
    requires i <= j <= n <= |s|
    ensures s[..n][i..j] == s[i..j]
  {}

  // ----- encryption -----

  /** `out` and `iv` are where encryption of `p` stands after `off` bytes. */
  ghost predicate Encrypting(c: Cipher, iv0: Bytes, p: Bytes, off: nat, out: Bytes, iv: Bytes) {
    && Good(c) && |iv0| == |iv| == c.bsize && off <= |p|
    && out + Encrypted(c, iv, p[off..]) == Encrypted(c, iv0, p)
    && EncryptedIv(c, iv, p[off..]) == EncryptedIv(c, iv0, p)
    && Rest(|p| - off, c.bsize) == Rest(|p|, c.bsize)
  }

  lemma EncryptingStarts(c: Cipher, iv: Bytes, p: Bytes)
    requires Good(c) && |iv| == c.bsize
    ensures Encrypting(c, iv, p, 0, [], iv)
  {
    assert p[0..] == p;
  }

  lemma EncryptingStep(c: Cipher, iv0: Bytes, p: Bytes, off: nat, out: Bytes, iv: Bytes)
    requires Encrypting(c, iv0, p, off, out, iv) && off + c.bsize <= |p|
    ensures var e := Enc(c, Xor(iv, p[off..off + c.bsize])); Encrypting(c, iv0, p, off + c.bsize, out + e, e)
  {
    var b, rest := p[off..off + c.bsize], p[off + c.bsize..];
    var e := Enc(c, Xor(iv, b));
    assert p[off..] == b + rest;
    hide Good, Enc, Xor, Encrypted, EncryptedIv;
    EncryptedStep(c, iv, b, rest);
    Concat(out, e, Encrypted(c, e, rest));
  }

  lemma EncryptingEnds(c: Cipher, iv0: Bytes, p: Bytes, off: nat, out: Bytes, iv: Bytes)
    requires Encrypting(c, iv0, p, off, out, iv) && |p| - off < c.bsize
    ensures out == Encrypted(c, iv0, p) && iv == EncryptedIv(c, iv0, p) && |p| - off == Rest(|p|, c.bsize)
  {
    Short(c, iv, p[off..]);
    assert out + [] == out;
  }

  /** One block: chain in, encrypt, and keep the result as the next chaining value. */
  method EncryptBlock(c: Cipher, src: array<bv8>, dst: array<bv8>, iv: array<bv8>, off: nat)
    requires Good(c) && iv.Length == c.bsize && off + c.bsize <= src.Length && off + c.bsize <= dst.Length
    requires src != dst && src != iv && dst != iv
    modifies dst, iv
    ensures var e := Enc(c, Xor(old(iv[..]), src[off..off + c.bsize]));
            dst[..] == Put(old(dst[..]), off, e) && iv[..] == e
  {
    hide Xor, Put;
    var n := c.bsize;
    ghost var iv0 := iv[..];
    assert iv[0..n] == iv0;
    XorInto(iv, 0, src, off, n);
    PutWhole(iv0, Xor(iv0, src[off..off + n]));
    var e := c.enc(iv[..]);
    Store(dst, off, e);
    PutAround(old(dst[..]), off, e);
    assert dst[off..off + n] == dst[..][off..off + n];
    ghost var iv1 := iv[..];
    Store(iv, 0, dst[off..off + n]);
    PutWhole(iv1, e);
  }

  /** `crypto_cbc_encrypt_segment`: from `src` to `dst`, chaining through the `iv` buffer. */
  method EncryptSegment(c: Cipher, src: array<bv8>, dst: array<bv8>, iv: array<bv8>, nbytes: nat) returns (left: nat)
    requires Good(c) && 0 < iv.Length == c.bsize <= nbytes <= src.Length && nbytes <= dst.Length
    requires src != dst && src != iv && dst != iv
    modifies dst, iv
    ensures left == Rest(nbytes, c.bsize)
    ensures dst[..] == Put(old(dst[..]), 0, Encrypted(c, old(iv[..]), src[..nbytes]))
    ensures iv[..] == EncryptedIv(c, old(iv[..]), src[..nbytes])
  {
    hide Xor, Put, Encrypting, Enc, Encrypted, EncryptedIv, Good, Rest;
    var off, n := 0, c.bsize;
    left := nbytes;
    ghost var p, iv0, d0, out := src[..nbytes], iv[..], dst[..], [];
    EncryptingStarts(c, iv0, p);
    PutNothing(d0);
    while left >= n
      invariant |out| == off && off + left == nbytes && Encrypting(c, iv0, p, off, out, iv[..])
      invariant dst[..] == Put(d0, 0, out)
      decreases left
    {
      EncryptingStep(c, iv0, p, off, out, iv[..]);
      SameSlice(src[..], nbytes, off, off + n);
      EncryptBlock(c, src, dst, iv, off);
      PutMore(d0, out, iv[..]);
      out := out + iv[..];
      off, left := off + n, left - n;
    }
    EncryptingEnds(c, iv0, p, off, out, iv[..]);
  }

  /** One block in place, chained with the block at `from` of `prev`. */
  method EncryptBlockInPlace(c: Cipher, buf: array<bv8>, off: nat, prev: array<bv8>, from: nat)
    requires Good(c) && off + c.bsize <= buf.Length && from + c.bsize <= prev.Length
    requires buf != prev || from + c.bsize <= off
    modifies buf
    ensures buf[..] == Put(old(buf[..]), off,
                           Enc(c, Xor(old(prev[from..from + c.bsize]), old(buf[off..off + c.bsize]))))
  {
    hide Put;
    var n := c.bsize;
    ghost var s, x := buf[..], Xor(buf[off..off + n], prev[from..from + n]);
    XorUndone(buf[off..off + n], prev[from..from + n]);
    XorInto(buf, off, prev, from, n);
    PutAround(s, off, x);
    assert buf[off..off + n] == buf[..][off..off + n];
    hide Xor, Good;
    var e := c.enc(buf[off..off + n]);
    Store(buf, off, e);
    PutTwice(s, off, x, e);
  }

  /** The chaining value is the `iv` buffer for the first block, the block before for any other. */
  ghost function Chain(iv: Bytes, buf: Bytes, off: nat, n: nat): (r: Bytes)
    requires off <= |buf|
    ensures |iv| == n ==> |r| == n
  {
    if off < n then iv else buf[off - n..off]
  }

  method EncryptNextInPlace(c: Cipher, buf: array<bv8>, iv: array<bv8>, off: nat, ghost b: Bytes)
    requires Good(c) && iv.Length == c.bsize && off + c.bsize <= buf.Length && buf != iv && (off == 0 || off >= c.bsize)
    requires b == buf[..][off..off + c.bsize]
    modifies buf
    ensures var e := Enc(c, Xor(Chain(iv[..], old(buf[..]), off, c.bsize), b));
            buf[..] == Put(old(buf[..]), off, e) && Chain(iv[..], buf[..], off + c.bsize, c.bsize) == e
  {
    hide Put, Xor;
    var n := c.bsize;
    ghost var s, cur := buf[..], Chain(iv[..], buf[..], off, n);
    assert buf[off..off + n] == b;
    if off == 0 {
      assert iv[0..n] == iv[..];
      EncryptBlockInPlace(c, buf, off, iv, 0);
    } else {
      assert buf[off - n..off] == s[off - n..off];
      EncryptBlockInPlace(c, buf, off, buf, off - n);
    }
    PutAround(s, off, Enc(c, Xor(cur, b)));
  }

  /** `crypto_cbc_encrypt_inplace`: the chaining value is the block just written. */
  method EncryptInPlace(c: Cipher, buf: array<bv8>, iv: array<bv8>, nbytes: nat) returns (left: nat)
    requires Good(c) && 0 < iv.Length == c.bsize <= nbytes <= buf.Length && buf != iv
    modifies buf, iv
    ensures left == Rest(nbytes, c.bsize)
    ensures buf[..] == Put(old(buf[..]), 0, Encrypted(c, old(iv[..]), old(buf[..nbytes])))
    ensures iv[..] == EncryptedIv(c, old(iv[..]), old(buf[..nbytes]))
  {
    hide Xor, Put, Encrypting, Enc, Encrypted, EncryptedIv, Good, Rest, Chain;
    var off, n := 0, c.bsize;
    left := nbytes;
    ghost var p, iv0, b0, out := buf[..nbytes], iv[..], buf[..], [];
    EncryptingStarts(c, iv0, p);
    PutNothing(b0);
    assert Chain(iv0, b0, 0, n) == iv0 by { ChainStarts(iv0, b0, n); }
    while left >= n
      invariant |out| == off && off + left == nbytes && buf[..] == Put(b0, 0, out) && (off == 0 || off >= n)
      invariant Encrypting(c, iv0, p, off, out, Chain(iv0, buf[..], off, n)) && iv[..] == iv0
      decreases left
    {
      ghost var cur := Chain(iv0, buf[..], off, n);
      InPlaceStep(c, iv0, b0, nbytes, off, out, cur);
      EncryptNextInPlace(c, buf, iv, off, p[off..off + n]);
      out := out + Enc(c, Xor(cur, p[off..off + n]));
      off, left := off + n, left - n;
    }
    EncryptingEnds(c, iv0, p, off, out, Chain(iv0, buf[..], off, n));
    CopyChain(buf, iv, off);
  }

  lemma InPlaceStep(c: Cipher, iv0: Bytes, b0: Bytes, nbytes: nat, off: nat, out: Bytes, cur: Bytes)
    requires nbytes <= |b0| && Encrypting(c, iv0, b0[..nbytes], off, out, cur) && |out| == off
    requires off + c.bsize <= nbytes
    ensures var b := b0[..nbytes][off..off + c.bsize]; var e := Enc(c, Xor(cur, b));
            && Put(b0, 0, out)[off..off + c.bsize] == b
            && Put(Put(b0, 0, out), off, e) == Put(b0, 0, out + e)
            && Encrypting(c, iv0, b0[..nbytes], off + c.bsize, out + e, e)
  {
    hide Put, Enc, Xor, Good, Encrypted, EncryptedIv, Rest;
    var n, p := c.bsize, b0[..nbytes];
    var e := Enc(c, Xor(cur, p[off..off + n]));
    EncryptingStep(c, iv0, p, off, out, cur);
    SameSlice(b0, nbytes, off, off + n);
    PutBefore(b0, out, off, off + n);
    PutMore(b0, out, e);
  }

  lemma ChainStarts(iv: Bytes, s: Bytes, n: nat)
    requires n > 0
    ensures Chain(iv, s, 0, n) == iv
  {}

  /** The last chaining value goes back to the `iv` buffer. */
  method CopyChain(buf: array<bv8>, iv: array<bv8>, off: nat)
    requires iv != buf && iv.Length <= off <= buf.Length
    modifies iv
    ensures iv[..] == Chain(old(iv[..]), buf[..], off, iv.Length)
  {
    var n := iv.Length;
    ghost var iv0 := iv[..];
    Store(iv, 0, buf[off - n..off]);
    PutWhole(iv0, buf[off - n..off]);
    assert buf[off - n..off] == buf[..][off - n..off];
  }

  // ----- decryption -----

  /** `out` and `iv` are where decryption of `p` stands after `off` bytes. */
  ghost predicate Decrypting(c: Cipher, iv0: Bytes, p: Bytes, off: nat, out: Bytes, iv: Bytes) {
    && Good(c) && |iv0| == |iv| == c.bsize && off <= |p|
    && out + Decrypted(c, iv, p[off..]) == Decrypted(c, iv0, p)
    && DecryptedIv(c, iv, p[off..]) == DecryptedIv(c, iv0, p)
    && Rest(|p| - off, c.bsize) == Rest(|p|, c.bsize)
  }

  lemma DecryptingStarts(c: Cipher, iv: Bytes, p: Bytes)
    requires Good(c) && |iv| == c.bsize
    ensures Decrypting(c, iv, p, 0, [], iv)
  {
    assert p[0..] == p;
  }

  lemma GoodBlock(c: Cipher)
    requires Good(c)
    ensures c.bsize > 0
  {}

  lemma RestLess(m: nat, n: nat)
    requires 0 < n <= m
    ensures Rest(m - n, n) == Rest(m, n)
  {}

  lemma DecryptingStep(c: Cipher, iv0: Bytes, p: Bytes, off: nat, out: Bytes, iv: Bytes)
    requires Decrypting(c, iv0, p, off, out, iv) && off + c.bsize <= |p|
    ensures var b := p[off..off + c.bsize]; Decrypting(c, iv0, p, off + c.bsize, out + Xor(Dec(c, b), iv), b)
  {
    hide Good, Dec, Xor, Decrypted, DecryptedIv, Rest;
    var b, rest := p[off..off + c.bsize], p[off + c.bsize..];
    assert p[off..] == b + rest;
    DecryptedStep(c, iv, b, rest);
    GoodBlock(c);
    RestLess(|p| - off, c.bsize);
    Concat(out, Xor(Dec(c, b), iv), Decrypted(c, b, rest));
  }

  lemma DecryptingEnds(c: Cipher, iv0: Bytes, p: Bytes, off: nat, out: Bytes, iv: Bytes)
    requires Decrypting(c, iv0, p, off, out, iv) && |p| - off < c.bsize
    ensures out == Decrypted(c, iv0, p) && iv == DecryptedIv(c, iv0, p) && |p| - off == Rest(|p|, c.bsize)
  {
    Short(c, iv, p[off..]);
    assert out + [] == out;
  }

  /** One block from `src` to `dst`, unchained with the block at `from` of `prev`. */
  method DecryptBlock(c: Cipher, src: array<bv8>, dst: array<bv8>, off: nat, prev: array<bv8>, from: nat)
    requires Good(c) && off + c.bsize <= src.Length && off + c.bsize <= dst.Length && from + c.bsize <= prev.Length
    requires dst != prev || from + c.bsize <= off
    modifies dst
    ensures dst[..] == Put(old(dst[..]), off,
                           Xor(Dec(c, old(src[off..off + c.bsize])), old(prev[from..from + c.bsize])))
  {
    hide Put, Xor;
    var n := c.bsize;
    ghost var s, iv := dst[..], prev[from..from + n];
    var x := c.dec(src[off..off + n]);
    Store(dst, off, x);
    PutAround(s, off, x);
    assert dst[off..off + n] == dst[..][off..off + n];
    if dst == prev {
      PutSlice(s, off, x, from, from + n);
      assert prev[from..from + n] == prev[..][from..from + n] && s[from..from + n] == iv;
    }
    XorInto(dst, off, prev, from, n);
    PutTwice(s, off, x, Xor(x, iv));
  }

  lemma PutSlice(s: Bytes, off: nat, b: Bytes, i: nat, j: nat)
    requires off + |b| <= |s| && i <= j <= off
    ensures Put(s, off, b)[i..j] == s[i..j]
  {}

  method DecryptNext(c: Cipher, src: array<bv8>, dst: array<bv8>, iv: array<bv8>, off: nat, ghost s: Bytes)
    requires Good(c) && iv.Length == c.bsize && off + c.bsize <= src.Length && off + c.bsize <= dst.Length
    requires src != dst && dst != iv && (off == 0 || off >= c.bsize) && s == src[..]
    modifies dst
    ensures dst[..] == Put(old(dst[..]), off, Xor(Dec(c, s[off..off + c.bsize]), Chain(iv[..], s, off, c.bsize)))
  {
    hide Put, Xor, Good;
    var n := c.bsize;
    assert src[off..off + n] == s[off..off + n];
    if off == 0 {
      assert iv[0..n] == iv[..];
      DecryptBlock(c, src, dst, off, iv, 0);
    } else {
      assert src[off - n..off] == s[off - n..off];
      DecryptBlock(c, src, dst, off, src, off - n);
    }
  }

  /** `crypto_cbc_decrypt_segment`: from `src` to `dst`, chaining through the ciphertext. */
  method DecryptSegment(c: Cipher, src: array<bv8>, dst: array<bv8>, iv: array<bv8>, nbytes: nat) returns (left: nat)
    requires Good(c) && 0 < iv.Length == c.bsize <= nbytes <= src.Length && nbytes <= dst.Length
    requires src != dst && src != iv && dst != iv
    modifies dst, iv
    ensures left == Rest(nbytes, c.bsize)
    ensures dst[..] == Put(old(dst[..]), 0, Decrypted(c, old(iv[..]), src[..nbytes]))
    ensures iv[..] == DecryptedIv(c, old(iv[..]), src[..nbytes])
  {
    ghost var s, iv0, d0 := src[..], iv[..], dst[..];
    assert s[..nbytes] == src[..nbytes];
    SegmentStarts(c, iv0, s, d0, nbytes);
    assert c.bsize > 0;
    hide Segment, Put, Decrypted, DecryptedIv, Good, Rest, Chain;
    var off, out := DecryptBlocks(c, src, dst, iv, nbytes, s, d0);
    SegmentEnds(c, iv0, s, d0, nbytes, off, out, dst[..]);
    left := nbytes - off;
    CopyChain(src, iv, off);
  }

  method DecryptStep(c: Cipher, src: array<bv8>, dst: array<bv8>, iv: array<bv8>, nbytes: nat, off: nat,
                     ghost s: Bytes, ghost d0: Bytes, ghost out: Bytes)
    returns (ghost out': Bytes)
    requires Good(c) && iv.Length == c.bsize && off + c.bsize <= nbytes <= src.Length && nbytes <= dst.Length
    requires src != dst && dst != iv && s == src[..] && (off == 0 || off >= c.bsize)
    requires Segment(c, iv[..], s, d0, nbytes, off, out, dst[..])
    modifies dst
    ensures Segment(c, iv[..], s, d0, nbytes, off + c.bsize, out', dst[..])
  {
    hide Segment, Xor, Put, Dec, Good, Chain;
    SegmentStep(c, iv[..], s, d0, nbytes, off, out, dst[..]);
    out' := out + Xor(Dec(c, s[off..off + c.bsize]), Chain(iv[..], s, off, c.bsize));
    DecryptNext(c, src, dst, iv, off, s);
  }

  /** The loop over the blocks. */
  method DecryptBlocks(c: Cipher, src: array<bv8>, dst: array<bv8>, iv: array<bv8>, nbytes: nat,
                       ghost s: Bytes, ghost d0: Bytes)
    returns (off: nat, ghost out: Bytes)
    requires Good(c) && 0 < iv.Length == c.bsize <= nbytes <= src.Length && nbytes <= dst.Length
    requires src != dst && dst != iv && s == src[..] && Segment(c, iv[..], s, d0, nbytes, 0, [], dst[..])
    modifies dst
    ensures Segment(c, iv[..], s, d0, nbytes, off, out, dst[..]) && c.bsize <= off <= nbytes < off + c.bsize
  {
    hide Segment, Good;
    var n := c.bsize;
    off, out := 0, [];
    ghost var iv0 := iv[..];
    while nbytes - off >= n
      invariant off <= nbytes && (off == 0 || off >= n) && src[..] == s && iv[..] == iv0
      invariant Segment(c, iv0, s, d0, nbytes, off, out, dst[..])
    {
      out := DecryptStep(c, src, dst, iv, nbytes, off, s, d0, out);
      off := off + n;
    }
  }

  /** Where the forward loop stands after `off` bytes: `out` is written to `d`, over `d0`. */
  ghost predicate Segment(c: Cipher, iv0: Bytes, s: Bytes, d0: Bytes, nbytes: nat, off: nat, out: Bytes, d: Bytes) {
    && off <= nbytes <= |s| && nbytes <= |d0| && |out| == off
    && Decrypting(c, iv0, s[..nbytes], off, out, Chain(iv0, s, off, c.bsize))
    && d == Put(d0, 0, out)
  }

  lemma SegmentStarts(c: Cipher, iv0: Bytes, s: Bytes, d0: Bytes, nbytes: nat)
    requires Good(c) && |iv0| == c.bsize && nbytes <= |s| && nbytes <= |d0|
    ensures Segment(c, iv0, s, d0, nbytes, 0, [], d0)
  {
    DecryptingStarts(c, iv0, s[..nbytes]);
    PutNothing(d0);
  }

  lemma SegmentStep(c: Cipher, iv0: Bytes, s: Bytes, d0: Bytes, nbytes: nat, off: nat, out: Bytes, d: Bytes)
    requires Segment(c, iv0, s, d0, nbytes, off, out, d) && off + c.bsize <= nbytes && |iv0| == c.bsize && Good(c)
    ensures |Chain(iv0, s, off, c.bsize)| == c.bsize && |d| == |d0|
    ensures var x := Xor(Dec(c, s[off..off + c.bsize]), Chain(iv0, s, off, c.bsize));
            Segment(c, iv0, s, d0, nbytes, off + c.bsize, out + x, Put(d, off, x))
  {
    var n := c.bsize;
    var cur := Chain(iv0, s, off, n);
    assert |cur| == n;
    ChainNext(iv0, s, off, n);
    hide Decrypting, Put, Dec, Xor, Chain, Good;
    SameSlice(s, nbytes, off, off + n);
    DecryptingStep(c, iv0, s[..nbytes], off, out, cur);
    PutMore(d0, out, Xor(Dec(c, s[off..off + n]), cur));
  }

  lemma SegmentEnds(c: Cipher, iv0: Bytes, s: Bytes, d0: Bytes, nbytes: nat, off: nat, out: Bytes, d: Bytes)
    requires Segment(c, iv0, s, d0, nbytes, off, out, d) && nbytes - off < c.bsize && Good(c) && |iv0| == c.bsize
    ensures d == Put(d0, 0, Decrypted(c, iv0, s[..nbytes]))
            && Chain(iv0, s, off, c.bsize) == DecryptedIv(c, iv0, s[..nbytes])
    ensures nbytes - off == Rest(nbytes, c.bsize)
  {
    hide Decrypting, Put, Chain, Good;
    DecryptingEnds(c, iv0, s[..nbytes], off, out, Chain(iv0, s, off, c.bsize));
  }

  lemma ChainNext(iv: Bytes, s: Bytes, off: nat, n: nat)
    requires off + n <= |s|
    ensures Chain(iv, s, off + n, n) == s[off..off + n]
  {}

  // ----- decryption in place, from the last block to the first -----

  lemma {:induction false} RestWhole(n: nat, b: nat)
    requires b > 0
    ensures Rest(n - Rest(n, b), b) == 0
  {
    if n >= b { RestWhole(n - b, b); }
  }

  lemma LastBlock(c: Cipher, iv: Bytes, p: Bytes, last: Bytes)
    requires Good(c) && |iv| == c.bsize == |last| && Rest(|p|, c.bsize) == 0
    ensures DecryptedIv(c, iv, p + last) == last
  {
    hide Good, Decrypted, DecryptedIv;
    DecryptSplit(c, iv, p, last);
    DecryptedStep(c, DecryptedIv(c, iv, p), last, []);
    assert last + [] == last;
    Short(c, last, []);
  }

  lemma ShortTail(c: Cipher, iv: Bytes, p: Bytes, tail: Bytes)
    requires Good(c) && |iv| == c.bsize > |tail| && Rest(|p|, c.bsize) == 0
    ensures Decrypted(c, iv, p + tail) == Decrypted(c, iv, p) && DecryptedIv(c, iv, p + tail) == DecryptedIv(c, iv, p)
  {
    hide Good, Decrypted, DecryptedIv;
    DecryptSplit(c, iv, p, tail);
    Short(c, DecryptedIv(c, iv, p), tail);
    assert Decrypted(c, iv, p) + [] == Decrypted(c, iv, p);
  }

  /** Only the whole blocks count, and the last of them is the next chaining value. */
  lemma DecryptedWhole(c: Cipher, iv: Bytes, s: Bytes, m: nat)
    requires Good(c) && |iv| == c.bsize <= |s| && c.bsize > 0 && m == |s| - Rest(|s|, c.bsize)
    ensures c.bsize <= m && Rest(m, c.bsize) == 0
    ensures Decrypted(c, iv, s) == Decrypted(c, iv, s[..m]) && DecryptedIv(c, iv, s) == s[m - c.bsize..m]
  {
    hide Good, Decrypted, DecryptedIv, Rest;
    var n := c.bsize;
    RestLeaves(|s|, n);
    RestWhole(|s|, n);
    RestShorter(m, n);
    SliceJoin(s, 0, m, |s|);
    SliceJoin(s, 0, m - n, m);
    assert s[0..|s|] == s && s[m..|s|] == s[m..] && s[0..m] == s[..m] && s[0..m - n] == s[..m - n];
    ShortTail(c, iv, s[..m], s[m..]);
    LastBlock(c, iv, s[..m - n], s[m - n..m]);
  }

  /** A whole block is not in the rest. */
  lemma RestLeaves(m: nat, n: nat)
    requires 0 < n <= m
    ensures n <= m - Rest(m, n)
  {}

  lemma {:induction false} RestShorter(m: nat, n: nat)
    requires n > 0 && m >= n && Rest(m, n) == 0
    ensures Rest(m - n, n) == 0
  {}

  /** Where the backward loop stands: everything behind the block at `off` is decrypted. */
  ghost predicate Backward(c: Cipher, b0: Bytes, m: nat, off: nat, d: Bytes) {
    && Good(c) && off + c.bsize <= m <= |b0| && Rest(off, c.bsize) == 0 && Rest(m - off - c.bsize, c.bsize) == 0
    && d == Put(b0, off + c.bsize, Decrypted(c, b0[off..off + c.bsize], b0[off + c.bsize..m]))
  }

  lemma PutJoin(s: Bytes, off: nat, x: Bytes, r: Bytes)
    requires off + |x| + |r| <= |s|
    ensures Put(Put(s, off + |x|, r), off, x) == Put(s, off, x + r)
  {}

  lemma SliceJoin(s: Bytes, i: nat, j: nat, k: nat)
    requires i <= j <= k <= |s|
    ensures s[i..k] == s[i..j] + s[j..k]
  {}

  /** The block at `off` is undone with the ciphertext block before it. */
  lemma BackwardStep(c: Cipher, b0: Bytes, m: nat, off: nat, d: Bytes, prev: Bytes)
    requires Backward(c, b0, m, off, d) && |prev| == c.bsize
    ensures |d| == |b0|
    ensures var x := Xor(Dec(c, b0[off..off + c.bsize]), prev);
            Rest(m - off, c.bsize) == 0 && Put(d, off, x) == Put(b0, off, Decrypted(c, prev, b0[off..m]))
  {
    hide Good, Dec, Xor, Decrypted, Put;
    var n := c.bsize;
    var b, rest := b0[off..off + n], b0[off + n..m];
    SliceJoin(b0, off, off + n, m);
    DecryptedStep(c, prev, b, rest);
    PutJoin(b0, off, Xor(Dec(c, b), prev), Decrypted(c, b, rest));
  }

  lemma BackwardBefore(c: Cipher, b0: Bytes, m: nat, off: nat, d: Bytes)
    requires Backward(c, b0, m, off, d)
    ensures |d| == |b0| && d[off..off + c.bsize] == b0[off..off + c.bsize] && c.bsize > 0
    ensures off > 0 ==> off >= c.bsize && d[off - c.bsize..off] == b0[off - c.bsize..off]
  {
    hide Decrypted;
  }

  lemma BackwardStarts(c: Cipher, b0: Bytes, m: nat)
    requires Good(c) && 0 < c.bsize <= m <= |b0| && Rest(m, c.bsize) == 0
    ensures Backward(c, b0, m, m - c.bsize, b0)
  {
    var n := c.bsize;
    RestShorter(m, n);
    assert b0[m..m] == [];
    Short(c, b0[m - n..m], []);
    PutEmpty(b0, m);
  }

  lemma PutEmpty(s: Bytes, off: nat)
    requires off <= |s|
    ensures Put(s, off, []) == s
  {}

  lemma BackwardNext(c: Cipher, b0: Bytes, m: nat, off: nat, d: Bytes)
    requires Backward(c, b0, m, off, d) && off > 0 && Good(c)
    ensures off >= c.bsize && |d| == |b0|
    ensures Backward(c, b0, m, off - c.bsize, Put(d, off, Xor(Dec(c, b0[off..off + c.bsize]), b0[off - c.bsize..off])))
  {
    hide Good, Dec, Xor, Decrypted, Put, Rest, Backward;
    var n, at := c.bsize, off - c.bsize;
    BackwardBefore(c, b0, m, off, d);
    BackwardPlace(c, b0, m, off, d);
    RestShorter(off, n);
    BackwardStep(c, b0, m, off, d, b0[at..off]);
    BackwardIs(c, b0, m, at, Put(d, off, Xor(Dec(c, b0[off..off + n]), b0[at..off])));
  }

  lemma BackwardPlace(c: Cipher, b0: Bytes, m: nat, off: nat, d: Bytes)
    requires Backward(c, b0, m, off, d)
    ensures off + c.bsize <= m <= |b0| && Rest(off, c.bsize) == 0
  {}

  lemma BackwardIs(c: Cipher, b0: Bytes, m: nat, at: nat, d: Bytes)
    requires Good(c) && at + c.bsize <= m <= |b0| && Rest(at, c.bsize) == 0 && Rest(m - (at + c.bsize), c.bsize) == 0
    requires d == Put(b0, at + c.bsize, Decrypted(c, b0[at..at + c.bsize], b0[at + c.bsize..m]))
    ensures Backward(c, b0, m, at, d)
  {
    hide Good, Decrypted, Put, Rest;
  }

  /** One turn of the backward loop: the block at `off`, undone with the ciphertext before it. */
  method DecryptBack(c: Cipher, buf: array<bv8>, m: nat, off: nat, ghost b0: Bytes)
    requires Good(c) && Backward(c, b0, m, off, buf[..]) && 0 < c.bsize <= off && off + c.bsize <= buf.Length
    modifies buf
    ensures Backward(c, b0, m, off - c.bsize, buf[..])
  {
    hide Good, Backward, Put, Xor, Dec;
    var n := c.bsize;
    ghost var d := buf[..];
    BackwardBefore(c, b0, m, off, d);
    BackwardNext(c, b0, m, off, d);
    assert buf[off..off + n] == d[off..off + n] && buf[off - n..off] == d[off - n..off];
    DecryptBlock(c, buf, buf, off, buf, off - n);
  }

  /** The first block, undone with the chaining value. */
  method DecryptFirst(c: Cipher, buf: array<bv8>, iv: array<bv8>, m: nat, ghost b0: Bytes)
    requires Good(c) && Backward(c, b0, m, 0, buf[..]) && m <= |b0| && iv.Length == c.bsize <= buf.Length && buf != iv
    modifies buf
    ensures Rest(m, c.bsize) == 0 && buf[..] == Put(b0, 0, Decrypted(c, iv[..], b0[..m]))
  {
    hide Good, Backward, Put, Xor, Dec, Decrypted;
    var n := c.bsize;
    ghost var d := buf[..];
    BackwardBefore(c, b0, m, 0, d);
    BackwardStep(c, b0, m, 0, d, iv[..]);
    assert buf[0..n] == d[0..n] && iv[0..n] == iv[..] && b0[0..m] == b0[..m];
    DecryptBlock(c, buf, buf, 0, iv, 0);
  }

  /** `crypto_cbc_decrypt_inplace`: the last ciphertext block is saved as the next chaining value, and
      the blocks are undone from the last to the first so that each still finds its predecessor. */
  method DecryptInPlace(c: Cipher, buf: array<bv8>, iv: array<bv8>, nbytes: nat) returns (left: nat)
    requires Good(c) && 0 < iv.Length == c.bsize <= nbytes <= buf.Length && buf != iv
    modifies buf, iv
    ensures left == Rest(nbytes, c.bsize)
    ensures buf[..] == Put(old(buf[..]), 0, Decrypted(c, old(iv[..]), old(buf[..nbytes])))
    ensures iv[..] == DecryptedIv(c, old(iv[..]), old(buf[..nbytes]))
  {
    hide Good, Backward, Put, Decrypted, DecryptedIv, Rest;
    left := Rest(nbytes, c.bsize);
    var m := nbytes - left;
    ghost var b0, iv0, s := buf[..], iv[..], buf[..nbytes];
    DecryptedWhole(c, iv0, s, m);
    SameSlice(b0, nbytes, 0, m);
    SameSlice(b0, nbytes, m - c.bsize, m);
    assert s == b0[..nbytes] && s[..m] == b0[..m];
    var lastIv := buf[m - c.bsize..m];
    assert lastIv == b0[m - c.bsize..m];
    DecryptAll(c, buf, iv, m, b0);
    Store(iv, 0, lastIv);
    PutWhole(iv0, lastIv);
  }

  method DecryptAll(c: Cipher, buf: array<bv8>, iv: array<bv8>, m: nat, ghost b0: Bytes)
    requires Good(c) && 0 < iv.Length == c.bsize <= m <= buf.Length && buf != iv && b0 == buf[..]
    requires Rest(m, c.bsize) == 0
    modifies buf
    ensures buf[..] == Put(b0, 0, Decrypted(c, iv[..], b0[..m]))
  {
    hide Good, Backward, Put, Decrypted, Rest;
    BackwardStarts(c, b0, m);
    var off := m - c.bsize;
    while off > 0
      invariant 0 <= off && off + c.bsize <= m && Backward(c, b0, m, off, buf[..])
      decreases off
    {
      BackwardNext(c, b0, m, off, buf[..]);
      DecryptBack(c, buf, m, off, b0);
      off := off - c.bsize;
    }
    DecryptFirst(c, buf, iv, m, b0);
  }
}
