/** The in-place parts of the cipher: key setup on its work arrays, and encryption and
    decryption on the four words of a block. */
module CamelliaTables {
  import opened Words
  import opened Camellia

  // ----- views of the arrays -----

  /** The halves held as left and right words in two arrays. */
  ghost function Subs(l: array<Word>, r: array<Word>): (k: seq<Half>)
    reads l, r
    requires l.Length == r.Length
    ensures |k| == l.Length
  {
    seq(l.Length, i requires 0 <= i < l.Length && l.Length == r.Length reads l, r => Half(l[i], r[i]))
  }

  /** The halves held as consecutive words of one array. */
  ghost function Table(subkey: array<Word>): (t: seq<Half>)
    reads subkey
    requires subkey.Length % 2 == 0
    ensures |t| == subkey.Length / 2
  {
    seq(subkey.Length / 2, i requires 0 <= i < subkey.Length / 2 && subkey.Length % 2 == 0 reads subkey =>
      Half(subkey[2 * i], subkey[2 * i + 1]))
  }

  ghost function IoBlock(io: array<Word>): Block
    reads io
    requires io.Length == 4
  {
    Block(Half(io[0], io[1]), Half(io[2], io[3]))
  }

  // ----- encryption and decryption -----

  /** `CAMELLIA_ROUNDSM` from the left half into the right one. */
  method RoundRight(s: Sboxes, io: array<Word>, k: Half)
    requires io.Length == 4
    modifies io
    ensures IoBlock(io) == var d := old(IoBlock(io)); Block(d.a, RoundSM(s, d.a, k, d.b))
  {
    hide X, Ror8, LookupLeft, LookupRight;
    var ir := LookupRight(s, io[1]);
    var il := LookupLeft(s, io[0]);
    il := X(il, k.l);
    ir := X(X(ir, il), k.r);
    io[2] := X(io[2], ir);
    io[3] := X(X(io[3], Ror8(il)), ir);
  }

  /** `CAMELLIA_ROUNDSM` from the right half into the left one. */
  method RoundLeft(s: Sboxes, io: array<Word>, k: Half)
    requires io.Length == 4
    modifies io
    ensures IoBlock(io) == var d := old(IoBlock(io)); Block(RoundSM(s, d.b, k, d.a), d.b)
  {
    hide X, Ror8, LookupLeft, LookupRight;
    var ir := LookupRight(s, io[3]);
    var il := LookupLeft(s, io[2]);
    il := X(il, k.l);
    ir := X(X(ir, il), k.r);
    io[0] := X(io[0], ir);
    io[1] := X(X(io[1], Ror8(il)), ir);
  }

  /** The subkey at index `i`. */
  method Subkey(subkey: array<Word>, i: nat) returns (k: Half)
    requires subkey.Length % 2 == 0 && i < subkey.Length / 2
    ensures k == Table(subkey)[i]
  {
    k := Half(subkey[2 * i], subkey[2 * i + 1]);
  }

  /** `ROUNDS(i)` of encryption. */
  method RoundsAt(s: Sboxes, io: array<Word>, subkey: array<Word>, i: nat)
    requires io.Length == 4 && subkey.Length % 2 == 0 && i + 8 <= subkey.Length / 2 && io != subkey
    modifies io
    ensures IoBlock(io) == Rounds(s, Table(subkey), i, old(IoBlock(io)))
  {
    hide RoundSM;
    var a := Subkey(subkey, i + 2);
    var b := Subkey(subkey, i + 3);
    var c := Subkey(subkey, i + 4);
    var d := Subkey(subkey, i + 5);
    var e := Subkey(subkey, i + 6);
    var f := Subkey(subkey, i + 7);
    RoundRight(s, io, a);
    RoundLeft(s, io, b);
    RoundRight(s, io, c);
    RoundLeft(s, io, d);
    RoundRight(s, io, e);
    RoundLeft(s, io, f);
  }

  /** `ROUNDS(i)` of decryption. */
  method RoundsBackAt(s: Sboxes, io: array<Word>, subkey: array<Word>, i: nat)
    requires io.Length == 4 && subkey.Length % 2 == 0 && i + 8 <= subkey.Length / 2 && io != subkey
    modifies io
    ensures IoBlock(io) == RoundsBack(s, Table(subkey), i, old(IoBlock(io)))
  {
    hide RoundSM;
    var a := Subkey(subkey, i + 7);
    var b := Subkey(subkey, i + 6);
    var c := Subkey(subkey, i + 5);
    var d := Subkey(subkey, i + 4);
    var e := Subkey(subkey, i + 3);
    var f := Subkey(subkey, i + 2);
    RoundRight(s, io, a);
    RoundLeft(s, io, b);
    RoundRight(s, io, c);
    RoundLeft(s, io, d);
    RoundRight(s, io, e);
    RoundLeft(s, io, f);
  }

  /** `CAMELLIA_FLS` with the subkeys at `i` and `j`. */
  method FlsAt(io: array<Word>, subkey: array<Word>, i: nat, j: nat)
    requires io.Length == 4 && subkey.Length % 2 == 0 && i < subkey.Length / 2 && j < subkey.Length / 2 && io != subkey
    modifies io
    ensures IoBlock(io) == Fls(Table(subkey)[i], Table(subkey)[j], old(IoBlock(io)))
  {
    hide X, And, Or, Rol1;
    var ka := Subkey(subkey, i);
    var kb := Subkey(subkey, j);
    var t0 := And(io[0], ka.l);
    var t2 := Or(io[3], kb.r);
    io[2] := X(io[2], t2);
    io[1] := X(io[1], Rol1(t0));
    var t3 := And(io[2], kb.l);
    var t1 := Or(io[1], ka.r);
    io[0] := X(io[0], t1);
    io[3] := X(io[3], Rol1(t3));
  }

  method WhitenAt(io: array<Word>, at: nat, subkey: array<Word>, i: nat)
    requires io.Length == 4 && (at == 0 || at == 2) && subkey.Length % 2 == 0 && i < subkey.Length / 2 && io != subkey
    modifies io
    ensures IoBlock(io) == if at == 0 then Block(Xor(old(IoBlock(io)).a, Table(subkey)[i]), old(IoBlock(io)).b)
                           else Block(old(IoBlock(io)).a, Xor(old(IoBlock(io)).b, Table(subkey)[i]))
  {
    hide X;
    var k := Subkey(subkey, i);
    io[at] := X(io[at], k.l);
    io[at + 1] := X(io[at + 1], k.r);
  }

  /** `camellia_do_encrypt`; the caller swaps the halves. */
  method DoEncrypt(s: Sboxes, subkey: array<Word>, io: array<Word>, max: nat)
    requires (max == 24 || max == 32) && subkey.Length == 2 * (max + 2) && io.Length == 4 && io != subkey
    modifies io
    ensures Swap(IoBlock(io)) == Encrypt(s, Table(subkey), max, old(IoBlock(io)))
  {
    hide Rounds, Fls, Xor;
    WhitenAt(io, 0, subkey, 0);
    RoundsAt(s, io, subkey, 0);
    FlsAt(io, subkey, 8, 9);
    RoundsAt(s, io, subkey, 8);
    FlsAt(io, subkey, 16, 17);
    RoundsAt(s, io, subkey, 16);
    if max == 32 {
      FlsAt(io, subkey, 24, 25);
      RoundsAt(s, io, subkey, 24);
    }
    WhitenAt(io, 2, subkey, max);
  }

  /** `camellia_do_decrypt`; the caller swaps the halves. */
  method DoDecrypt(s: Sboxes, subkey: array<Word>, io: array<Word>, max: nat)
    requires (max == 24 || max == 32) && subkey.Length == 2 * (max + 2) && io.Length == 4 && io != subkey
    modifies io
    ensures Swap(IoBlock(io)) == Decrypt(s, Table(subkey), max, old(IoBlock(io)))
  {
    hide RoundsBack, Fls, Xor;
    WhitenAt(io, 0, subkey, max);
    if max == 32 {
      RoundsBackAt(s, io, subkey, 24);
      FlsAt(io, subkey, 25, 24);
    }
    RoundsBackAt(s, io, subkey, 16);
    FlsAt(io, subkey, 17, 16);
    RoundsBackAt(s, io, subkey, 8);
    FlsAt(io, subkey, 9, 8);
    RoundsBackAt(s, io, subkey, 0);
    WhitenAt(io, 2, subkey, 0);
  }

  // ----- key setup: what its phases compute -----

  /** Adds `w` to every other subkey of a group. */
  function AddThree(k: seq<Half>, i: nat, w: Half): (r: seq<Half>)
    requires i + 4 < |k|
    ensures |r| == |k|
  {
    k[i := Xor(k[i], w)][i + 2 := Xor(k[i + 2], w)][i + 4 := Xor(k[i + 4], w)]
  }

  function Add(k: seq<Half>, i: nat, w: Half): (r: seq<Half>)
    requires i < |k|
    ensures |r| == |k|
  {
    k[i := Xor(k[i], w)]
  }

  /** Moves the constant kept in subkey 1 through the layer keyed by subkey `j`. */
  function Pass(k: seq<Half>, j: nat): (r: seq<Half>)
    requires 1 < j < |k|
    ensures |r| == |k|
  {
    k[1 := G(k[1], k[j])]
  }

  /** kw2 absorbed into the even rounds and kw3, passing FLINV on the way. */
  function AfterKw2(k: seq<Half>, max: nat): (r: seq<Half>)
    requires (max == 24 || max == 32) && |k| == max + 2
    ensures |r| == |k|
  {
    var a := Pass(AddThree(k, 3, k[1]), 9);
    var b := Pass(AddThree(a, 11, a[1]), 17);
    var c := AddThree(b, 19, b[1]);
    if max == 24 then Add(c, 24, c[1])
    else
      var d := Pass(c, 25);
      var e := AddThree(d, 27, d[1]);
      Add(e, 32, e[1])
  }

  /** kw4 absorbed into the odd rounds and kw1, passing FL backwards. */
  function AfterKw4(k: seq<Half>, max: nat): (r: seq<Half>)
    requires (max == 24 || max == 32) && |k| == max + 2
    ensures |r| == |k|
  {
    var a := if max == 32 then AddThree(k, 26, k[33]) else k;
    var c2 := if max == 32 then G(k[33], a[24]) else k[25];
    var b := AddThree(a, 18, c2);
    var c1 := G(c2, b[16]);
    var c := AddThree(b, 10, c1);
    var c0 := G(c1, c[8]);
    Add(AddThree(c, 2, c0), 0, c0)
  }

  // ----- key setup: the phases -----

  method AddAt(subL: array<Word>, subR: array<Word>, i: nat, w: Half)
    requires subL != subR && subL.Length == subR.Length && i < subL.Length
    modifies subL, subR
    ensures Subs(subL, subR) == Add(old(Subs(subL, subR)), i, w)
  {
    hide X;
    subL[i] := X(subL[i], w.l);
    subR[i] := X(subR[i], w.r);
  }

  method AddThreeAt(subL: array<Word>, subR: array<Word>, i: nat, w: Half)
    requires subL != subR && subL.Length == subR.Length && i + 4 < subL.Length
    modifies subL, subR
    ensures Subs(subL, subR) == AddThree(old(Subs(subL, subR)), i, w)
  {
    hide Xor;
    AddAt(subL, subR, i, w);
    AddAt(subL, subR, i + 2, w);
    AddAt(subL, subR, i + 4, w);
  }

  /** Moves the constant kept in subkey 1 through the FL or FLINV layer keyed by subkey `j`. */
  method PassLayer(subL: array<Word>, subR: array<Word>, j: nat)
    requires subL != subR && subL.Length == subR.Length && 1 < j < subL.Length
    modifies subL, subR
    ensures Subs(subL, subR) == Pass(old(Subs(subL, subR)), j)
  {
    hide X, And, AndNot, Rol1;
    subL[1] := X(subL[1], AndNot(subR[1], subR[j]));
    var dw := And(subL[1], subL[j]);
    subR[1] := X(subR[1], Rol1(dw));
  }

  method AbsorbKw2(subL: array<Word>, subR: array<Word>, max: nat)
    requires subL != subR && (max == 24 || max == 32) && subL.Length == subR.Length == max + 2
    modifies subL, subR
    ensures Subs(subL, subR) == AfterKw2(old(Subs(subL, subR)), max)
  {
    hide AddThree, Add, Pass;
    AddThreeAt(subL, subR, 3, Half(subL[1], subR[1]));
    PassLayer(subL, subR, 9);
    AddThreeAt(subL, subR, 11, Half(subL[1], subR[1]));
    PassLayer(subL, subR, 17);
    AddThreeAt(subL, subR, 19, Half(subL[1], subR[1]));
    if max == 24 {
      AddAt(subL, subR, 24, Half(subL[1], subR[1]));
    } else {
      PassLayer(subL, subR, 25);
      AddThreeAt(subL, subR, 27, Half(subL[1], subR[1]));
      AddAt(subL, subR, 32, Half(subL[1], subR[1]));
    }
  }

  /** The constant in `c` after the layer keyed by subkey `j`. */
  method ThroughLayer(c: Half, subL: array<Word>, subR: array<Word>, j: nat) returns (r: Half)
    requires subL.Length == subR.Length && j < subL.Length
    ensures r == G(c, Subs(subL, subR)[j])
  {
    hide X, And, AndNot, Rol1;
    var kw4l := X(c.l, AndNot(c.r, subR[j]));
    var dw := And(kw4l, subL[j]);
    r := Half(kw4l, X(c.r, Rol1(dw)));
  }

  method AbsorbKw4(subL: array<Word>, subR: array<Word>, max: nat)
    requires subL != subR && (max == 24 || max == 32) && subL.Length == subR.Length == max + 2
    modifies subL, subR
    ensures Subs(subL, subR) == AfterKw4(old(Subs(subL, subR)), max)
  {
    hide AddThree, Add, G;
    var kw4 := Half(subL[max + 1], subR[max + 1]);
    if max == 32 {
      AddThreeAt(subL, subR, 26, kw4);
      kw4 := ThroughLayer(kw4, subL, subR, 24);
    }
    AddThreeAt(subL, subR, 18, kw4);
    kw4 := ThroughLayer(kw4, subL, subR, 16);
    AddThreeAt(subL, subR, 10, kw4);
    kw4 := ThroughLayer(kw4, subL, subR, 8);
    AddThreeAt(subL, subR, 2, kw4);
    AddAt(subL, subR, 0, kw4);
  }

  // ----- key setup: the table -----

  function PutSix(t: seq<Half>, i: nat, first: Half, a: Half, b: Half, c: Half, d: Half, last: Half): (r: seq<Half>)
    requires i + 8 <= |t|
    ensures |r| == |t|
  {
    t[i + 2 := first][i + 3 := a][i + 4 := b][i + 5 := c][i + 6 := d][i + 7 := last]
  }

  /** Subkeys `i + 2` to `i + 7` of the table, before the P function is undone. */
  function PutGroup(t: seq<Half>, s: seq<Half>, i: nat, first: Half, last: Half): (r: seq<Half>)
    requires i + 8 <= |t| && i + 8 <= |s|
    ensures |r| == |t|
  {
    PutSix(t, i, first, Xor(s[i + 2], s[i + 4]), Xor(s[i + 3], s[i + 5]),
           Xor(s[i + 4], s[i + 6]), Xor(s[i + 5], s[i + 7]), last)
  }

  function Put(t: seq<Half>, i: nat, k: Half): (r: seq<Half>)
    requires i < |t|
    ensures |r| == |t|
  {
    t[i := k]
  }

  /** The table up to the first FL layer, written from the absorbed subkeys `s`. */
  function RawFirst(t: seq<Half>, s: seq<Half>): (r: seq<Half>)
    requires |t| == |s| && |t| >= 26
    ensures |r| == |t|
  {
    var a := PutGroup(Put(t, 0, Xor(s[0], s[2])), s, 0, s[3], Xor(s[6], G(s[10], s[8])));
    Put(Put(a, 8, s[8]), 9, s[9])
  }

  function RawSecond(t: seq<Half>, s: seq<Half>): (r: seq<Half>)
    requires |t| == |s| && |t| >= 26
    ensures |r| == |t|
  {
    var a := PutGroup(t, s, 8, Xor(G(s[7], s[9]), s[11]), Xor(s[14], G(s[18], s[16])));
    Put(Put(a, 16, s[16]), 17, s[17])
  }

  function RawBack(t: seq<Half>, s: seq<Half>, max: nat): (r: seq<Half>)
    requires (max == 24 || max == 32) && |t| == |s| == max + 2
    ensures |r| == |t|
  {
    if max == 24 then
      Put(PutGroup(t, s, 16, Xor(G(s[15], s[17]), s[19]), s[22]), 24, Xor(s[24], s[23]))
    else
      Put(PutGroup(RawThird(t, s), s, 24, Xor(G(s[23], s[25]), s[27]), s[30]), 32, Xor(s[32], s[31]))
  }

  /** The third group of a 24-round table and the layer behind it. */
  function RawThird(t: seq<Half>, s: seq<Half>): (r: seq<Half>)
    requires |t| == |s| == 34
    ensures |r| == |t|
  {
    var e := PutGroup(t, s, 16, Xor(G(s[15], s[17]), s[19]), Xor(s[22], G(s[26], s[24])));
    Put(Put(e, 24, s[24]), 25, s[25])
  }

  predicate IsRoundKey(i: nat, max: nat) { i < max && i % 8 >= 2 }

  method PutAt(subkey: array<Word>, i: nat, k: Half)
    requires subkey.Length % 2 == 0 && i < subkey.Length / 2
    modifies subkey
    ensures Table(subkey) == Put(old(Table(subkey)), i, k)
  {
    subkey[2 * i] := k.l;
    subkey[2 * i + 1] := k.r;
  }

  method Sub(subL: array<Word>, subR: array<Word>, i: nat) returns (k: Half)
    requires subL.Length == subR.Length && i < subL.Length
    ensures k == Subs(subL, subR)[i]
  {
    k := Half(subL[i], subR[i]);
  }

  method Sum(subL: array<Word>, subR: array<Word>, i: nat, j: nat) returns (k: Half)
    requires subL.Length == subR.Length && i < subL.Length && j < subL.Length
    ensures k == Xor(Subs(subL, subR)[i], Subs(subL, subR)[j])
  {
    k := Half(X(subL[i], subL[j]), X(subR[i], subR[j]));
  }

  /** The four inner keys of a group. */
  method InnerKeys(subL: array<Word>, subR: array<Word>, i: nat) returns (a: Half, b: Half, c: Half, d: Half)
    requires subL.Length == subR.Length && i + 8 <= subL.Length
    ensures var s := Subs(subL, subR);
            && a == Xor(s[i + 2], s[i + 4]) && b == Xor(s[i + 3], s[i + 5])
            && c == Xor(s[i + 4], s[i + 6]) && d == Xor(s[i + 5], s[i + 7])
  {
    hide Xor;
    a := Sum(subL, subR, i + 2, i + 4);
    b := Sum(subL, subR, i + 3, i + 5);
    c := Sum(subL, subR, i + 4, i + 6);
    d := Sum(subL, subR, i + 5, i + 7);
  }

  method PutSixAt(subkey: array<Word>, i: nat, first: Half, a: Half, b: Half, c: Half, d: Half, last: Half)
    requires subkey.Length % 2 == 0 && i + 8 <= subkey.Length / 2
    modifies subkey
    ensures Table(subkey) == PutSix(old(Table(subkey)), i, first, a, b, c, d, last)
  {
    PutAt(subkey, i + 2, first);
    PutAt(subkey, i + 3, a);
    PutAt(subkey, i + 4, b);
    PutAt(subkey, i + 5, c);
    PutAt(subkey, i + 6, d);
    PutAt(subkey, i + 7, last);
  }

  /** The first and the last key of a group next to an FL layer. */
  method FirstKey(subL: array<Word>, subR: array<Word>, i: nat) returns (k: Half)
    requires subL.Length == subR.Length && 1 <= i && i + 3 < subL.Length
    ensures var s := Subs(subL, subR); k == Xor(G(s[i - 1], s[i + 1]), s[i + 3])
  {
    hide X, G;
    var a := Sub(subL, subR, i - 1);
    var t := ThroughLayer(a, subL, subR, i + 1);
    k := Half(X(t.l, subL[i + 3]), X(t.r, subR[i + 3]));
  }

  method LastKey(subL: array<Word>, subR: array<Word>, i: nat) returns (k: Half)
    requires subL.Length == subR.Length && i + 10 < subL.Length
    ensures var s := Subs(subL, subR); k == Xor(s[i + 6], G(s[i + 10], s[i + 8]))
  {
    hide X, G;
    var a := Sub(subL, subR, i + 10);
    var t := ThroughLayer(a, subL, subR, i + 8);
    k := Half(X(subL[i + 6], t.l), X(subR[i + 6], t.r));
  }

  method PutTwoAt(subkey: array<Word>, i: nat, x: Half, y: Half)
    requires subkey.Length % 2 == 0 && i + 1 < subkey.Length / 2
    modifies subkey
    ensures Table(subkey) == Put(Put(old(Table(subkey)), i, x), i + 1, y)
  {
    hide Put;
    PutAt(subkey, i, x);
    PutAt(subkey, i + 1, y);
  }

  method WriteFirst(subkey: array<Word>, subL: array<Word>, subR: array<Word>)
    requires subkey.Length % 2 == 0 && subL.Length == subR.Length == subkey.Length / 2 && subL.Length >= 26
    requires subkey != subL && subkey != subR
    modifies subkey
    ensures Table(subkey) == RawFirst(old(Table(subkey)), old(Subs(subL, subR)))
  {
    hide Xor, G, Put, PutSix, Table, Subs;
    var k := Sum(subL, subR, 0, 2);
    var last := LastKey(subL, subR, 0);
    var k3 := Sub(subL, subR, 3);
    var k8 := Sub(subL, subR, 8);
    var k9 := Sub(subL, subR, 9);
    var a, b, c, d := InnerKeys(subL, subR, 0);
    PutAt(subkey, 0, k);
    PutSixAt(subkey, 0, k3, a, b, c, d, last);
    PutTwoAt(subkey, 8, k8, k9);
  }

  method WriteSecond(subkey: array<Word>, subL: array<Word>, subR: array<Word>)
    requires subkey.Length % 2 == 0 && subL.Length == subR.Length == subkey.Length / 2 && subL.Length >= 26
    requires subkey != subL && subkey != subR
    modifies subkey
    ensures Table(subkey) == RawSecond(old(Table(subkey)), old(Subs(subL, subR)))
  {
    hide Xor, G, Put, PutSix, Table, Subs;
    var first := FirstKey(subL, subR, 8);
    var last := LastKey(subL, subR, 8);
    var k16 := Sub(subL, subR, 16);
    var k17 := Sub(subL, subR, 17);
    var a, b, c, d := InnerKeys(subL, subR, 8);
    PutSixAt(subkey, 8, first, a, b, c, d, last);
    PutTwoAt(subkey, 16, k16, k17);
  }

  /** The last part of an 18-round table. */
  method WriteBackShort(subkey: array<Word>, subL: array<Word>, subR: array<Word>)
    requires subkey.Length == 52 && subL.Length == subR.Length == 26
    requires subkey != subL && subkey != subR
    modifies subkey
    ensures Table(subkey) == RawBack(old(Table(subkey)), old(Subs(subL, subR)), 24)
  {
    hide Xor, G, Put, PutSix, Table, Subs;
    var first := FirstKey(subL, subR, 16);
    var a, b, c, d := InnerKeys(subL, subR, 16);
    var k := Sum(subL, subR, 24, 23);
    var k22 := Sub(subL, subR, 22);
    PutSixAt(subkey, 16, first, a, b, c, d, k22);
    PutAt(subkey, 24, k);
  }

  method WriteBack(subkey: array<Word>, subL: array<Word>, subR: array<Word>, max: nat)
    requires (max == 24 || max == 32) && subkey.Length == 2 * (max + 2) && subL.Length == subR.Length == max + 2
    requires subkey != subL && subkey != subR
    modifies subkey
    ensures Table(subkey) == RawBack(old(Table(subkey)), old(Subs(subL, subR)), max)
  {
    hide Xor, G, Put, PutSix, Table, Subs;
    if max == 24 {
      WriteBackShort(subkey, subL, subR);
    } else {
      hide RawThird;
      WriteThird(subkey, subL, subR);
      var first := FirstKey(subL, subR, 24);
      var a, b, c, d := InnerKeys(subL, subR, 24);
      var k := Sum(subL, subR, 32, 31);
      var k30 := Sub(subL, subR, 30);
      PutSixAt(subkey, 24, first, a, b, c, d, k30);
      PutAt(subkey, 32, k);
    }
  }

  method WriteThird(subkey: array<Word>, subL: array<Word>, subR: array<Word>)
    requires subkey.Length == 68 && subL.Length == subR.Length == 34
    requires subkey != subL && subkey != subR
    modifies subkey
    ensures Table(subkey) == RawThird(old(Table(subkey)), old(Subs(subL, subR)))
  {
    hide Xor, G, Put, PutSix, Table, Subs;
    var first := FirstKey(subL, subR, 16);
    var a, b, c, d := InnerKeys(subL, subR, 16);
    var last := LastKey(subL, subR, 16);
    var k24 := Sub(subL, subR, 24);
    var k25 := Sub(subL, subR, 25);
    PutSixAt(subkey, 16, first, a, b, c, d, last);
    PutTwoAt(subkey, 24, k24, k25);
  }

  /** Undoes the last half of the P function on one round key. */
  method InvertAt(subkey: array<Word>, i: nat)
    requires subkey.Length % 2 == 0 && i < subkey.Length / 2
    modifies subkey
    ensures Table(subkey) == Put(old(Table(subkey)), i, PInv(old(Table(subkey))[i]))
  {
    hide X, Rol8;
    var dw := Rol8(X(subkey[2 * i], subkey[2 * i + 1]));
    subkey[2 * i + 1] := X(subkey[2 * i], dw);
    subkey[2 * i] := dw;
  }

  method InvertThree(subkey: array<Word>, i: nat)
    requires subkey.Length % 2 == 0 && i + 3 <= subkey.Length / 2
    modifies subkey
    ensures var t, t' := old(Table(subkey)), Table(subkey);
            |t'| == |t| && forall j :: 0 <= j < |t| ==> t'[j] == if i <= j < i + 3 then PInv(t[j]) else t[j]
  {
    hide PInv;
    InvertAt(subkey, i);
    InvertAt(subkey, i + 1);
    InvertAt(subkey, i + 2);
  }

  /** The round keys of one group. */
  lemma RoundKeysOf(i: nat)
    requires i % 8 == 2
    ensures (i + 8) % 8 == 2 && forall j :: i <= j < i + 8 ==> (j % 8 >= 2 <==> j < i + 6)
  {
    var g := i / 8;
    forall j | i <= j < i + 8 ensures j % 8 >= 2 <==> j < i + 6 {
      assert j == 8 * g + (j - 8 * g);
    }
  }

  /** The closing loop of the key setup. */
  method InvertRoundKeys(subkey: array<Word>, max: nat)
    requires (max == 24 || max == 32) && subkey.Length == 2 * (max + 2)
    modifies subkey
    ensures var t, t' := old(Table(subkey)), Table(subkey);
            forall j :: 0 <= j < max + 2 ==> t'[j] == if IsRoundKey(j, max) then PInv(t[j]) else t[j]
  {
    hide PInv;
    ghost var t := Table(subkey);
    var i := 2;
    while i < max
      invariant 2 <= i <= max + 2 && i % 8 == 2
      invariant forall j :: 0 <= j < max + 2 ==> Table(subkey)[j] == if j < i && j % 8 >= 2 then PInv(t[j]) else t[j]
    {
      RoundKeysOf(i);
      InvertThree(subkey, i);
      InvertThree(subkey, i + 3);
      i := i + 8;
    }
  }

  // ----- key setup: the closed form -----

  /** In the group at `i` the odd rounds carry the extra constant `c` and the even ones `w`. */
  ghost predicate GroupAbsorbed(k: seq<Half>, s: seq<Half>, i: nat, c: Half, w: Half)
    requires |k| == |s| && i + 8 <= |k|
  {
    && s[i + 2] == Xor(k[i + 2], c) && s[i + 4] == Xor(k[i + 4], c) && s[i + 6] == Xor(k[i + 6], c)
    && s[i + 3] == Xor(k[i + 3], w) && s[i + 5] == Xor(k[i + 5], w) && s[i + 7] == Xor(k[i + 7], w)
  }

  /** The constants that travel: `w` from kw2 downwards, `c` from kw4 upwards. */
  function W1(k: seq<Half>): Half requires |k| >= 26 { G(k[1], k[9]) }

  function W2(k: seq<Half>): Half requires |k| >= 26 { G(W1(k), k[17]) }

  function W3(k: seq<Half>): Half requires |k| >= 26 { G(W2(k), k[25]) }

  function C2(k: seq<Half>, max: nat): Half
    requires (max == 24 || max == 32) && |k| == max + 2
  {
    if max == 32 then G(k[33], k[24]) else k[25]
  }

  function C1(k: seq<Half>, max: nat): Half
    requires (max == 24 || max == 32) && |k| == max + 2
  {
    G(C2(k, max), k[16])
  }

  function C0(k: seq<Half>, max: nat): Half
    requires (max == 24 || max == 32) && |k| == max + 2
  {
    G(C1(k, max), k[8])
  }

  function Absorbed(k: seq<Half>, max: nat): (s: seq<Half>)
    requires (max == 24 || max == 32) && |k| == max + 2
    ensures |s| == |k|
  {
    AfterKw4(AfterKw2(k, max), max)
  }

  lemma AddThreeAt'(k: seq<Half>, i: nat, w: Half, j: nat)
    requires i + 4 < |k| && j < |k|
    ensures AddThree(k, i, w)[j] == if j == i || j == i + 2 || j == i + 4 then Xor(k[j], w) else k[j]
  {
    hide Xor;
  }

  /** Subkey `j` after kw2 has been absorbed. */
  function Kw2At(k: seq<Half>, max: nat, j: nat): Half
    requires (max == 24 || max == 32) && |k| == max + 2 && j < |k|
  {
    if j == 1 then (if max == 24 then W2(k) else W3(k))
    else if j == 3 || j == 5 || j == 7 then Xor(k[j], k[1])
    else if j == 11 || j == 13 || j == 15 then Xor(k[j], W1(k))
    else if j == 19 || j == 21 || j == 23 || (max == 24 && j == 24) then Xor(k[j], W2(k))
    else if j == 27 || j == 29 || j == 31 || j == 32 then Xor(k[j], W3(k))
    else k[j]
  }

  lemma Kw2Absorbed(k: seq<Half>, max: nat, j: nat)
    requires (max == 24 || max == 32) && |k| == max + 2 && j < |k|
    ensures AfterKw2(k, max)[j] == Kw2At(k, max, j)
  {
    hide Xor, G, AddThree, Pass, TwoStages, W1, W2;
    var b := TwoStages(k);
    TwoStagesIs(k, max);
    TwoStagesAt(k, j); TwoStagesAt(k, 1);
    if max == 24 {
      AddThreeAt'(b, 19, b[1], j); AddThreeAt'(b, 19, b[1], 1);
    } else {
      var d := Pass(AddThree(b, 19, b[1]), 25);
      TwoStagesAt(k, 25);
      StageAt(b, 19, j); StageAt(b, 19, 1);
      AddThreeAt'(d, 27, d[1], j); AddThreeAt'(d, 27, d[1], 1);
    }
  }

  function TwoStages(k: seq<Half>): (r: seq<Half>)
    requires |k| >= 26
    ensures |r| == |k|
  {
    var a := Pass(AddThree(k, 3, k[1]), 9);
    Pass(AddThree(a, 11, a[1]), 17)
  }

  lemma TwoStagesIs(k: seq<Half>, max: nat)
    requires (max == 24 || max == 32) && |k| == max + 2
    ensures var b := TwoStages(k);
            var c := AddThree(b, 19, b[1]);
            AfterKw2(k, max) ==
            if max == 24 then Add(c, 24, c[1])
            else var d := Pass(c, 25); var e := AddThree(d, 27, d[1]); Add(e, 32, e[1])
  {
    hide AddThree, Pass, Add;
  }

  lemma TwoStagesAt(k: seq<Half>, j: nat)
    requires |k| >= 26 && j < |k|
    ensures TwoStages(k)[j] ==
            if j == 1 then W2(k)
            else if j == 3 || j == 5 || j == 7 then Xor(k[j], k[1])
            else if j == 11 || j == 13 || j == 15 then Xor(k[j], W1(k)) else k[j]
  {
    hide Xor, G, AddThree, Pass;
    var a := Pass(AddThree(k, 3, k[1]), 9);
    StageAt(k, 3, j); StageAt(k, 3, 1); StageAt(k, 3, 17);
    StageAt(a, 11, j); StageAt(a, 11, 1);
  }

  /** One group takes the constant of subkey 1, which then passes the layer behind it. */
  lemma StageAt(k: seq<Half>, i: nat, j: nat)
    requires 1 < i && i + 6 < |k| && j < |k|
    ensures Pass(AddThree(k, i, k[1]), i + 6)[j] ==
            if j == 1 then G(k[1], k[i + 6])
            else if j == i || j == i + 2 || j == i + 4 then Xor(k[j], k[1]) else k[j]
  {
    hide Xor, G, AddThree;
    AddThreeAt'(k, i, k[1], j); AddThreeAt'(k, i, k[1], 1); AddThreeAt'(k, i, k[1], i + 6);
  }

  /** Subkey `j` after kw4 has been absorbed. */
  function Kw4At(k: seq<Half>, max: nat, j: nat): Half
    requires (max == 24 || max == 32) && |k| == max + 2 && j < |k|
  {
    if j == 0 || j == 2 || j == 4 || j == 6 then Xor(k[j], C0(k, max))
    else if j == 10 || j == 12 || j == 14 then Xor(k[j], C1(k, max))
    else if j == 18 || j == 20 || j == 22 then Xor(k[j], C2(k, max))
    else if max == 32 && (j == 26 || j == 28 || j == 30) then Xor(k[j], k[33])
    else k[j]
  }

  lemma Kw4Absorbed(k: seq<Half>, max: nat, j: nat)
    requires (max == 24 || max == 32) && |k| == max + 2 && j < |k|
    ensures AfterKw4(k, max)[j] == Kw4At(k, max, j)
  {
    hide Xor, G, AddThree;
    var a := if max == 32 then AddThree(k, 26, k[33]) else k;
    if max == 32 {
      AddThreeAt'(k, 26, k[33], j); AddThreeAt'(k, 26, k[33], 24);
      AddThreeAt'(k, 26, k[33], 16); AddThreeAt'(k, 26, k[33], 8);
    }
    var c2 := if max == 32 then G(k[33], a[24]) else k[25];
    var b := AddThree(a, 18, c2);
    AddThreeAt'(a, 18, c2, j); AddThreeAt'(a, 18, c2, 16); AddThreeAt'(a, 18, c2, 8);
    var c1 := G(c2, b[16]);
    var c := AddThree(b, 10, c1);
    AddThreeAt'(b, 10, c1, j); AddThreeAt'(b, 10, c1, 8);
    AddThreeAt'(c, 2, G(c1, c[8]), j);
  }

  /** Neither absorption touches the keys of the FL layers. */
  lemma LayerKeysKept(k: seq<Half>, max: nat, j: nat)
    requires (max == 24 || max == 32) && |k| == max + 2 && j < |k|
    requires IsLayerKey(j, max)
    ensures AfterKw2(k, max)[j] == k[j] && Absorbed(k, max)[j] == k[j]
  {
    hide AfterKw2, AfterKw4;
    LayerKeysKw2(k, max, j);
    LayerKeysKw4(AfterKw2(k, max), max, j);
  }

  predicate IsLayerKey(j: nat, max: nat) {
    j == 8 || j == 9 || j == 16 || j == 17 || j == max + 1 || (max == 32 && (j == 24 || j == 25))
  }

  lemma LayerKeysKw2(k: seq<Half>, max: nat, j: nat)
    requires (max == 24 || max == 32) && |k| == max + 2 && j < |k| && IsLayerKey(j, max)
    ensures AfterKw2(k, max)[j] == k[j]
  {
    hide AfterKw2, Xor, W1, W2, W3;
    Kw2Absorbed(k, max, j);
  }

  lemma LayerKeysKw4(k: seq<Half>, max: nat, j: nat)
    requires (max == 24 || max == 32) && |k| == max + 2 && j < |k| && IsLayerKey(j, max)
    ensures AfterKw4(k, max)[j] == k[j]
  {
    hide AfterKw4, Xor, C0, C1, C2;
    Kw4Absorbed(k, max, j);
  }

  lemma SameConstants(k: seq<Half>, max: nat)
    requires (max == 24 || max == 32) && |k| == max + 2
    ensures var a := AfterKw2(k, max);
            C0(a, max) == C0(k, max) && C1(a, max) == C1(k, max) && C2(a, max) == C2(k, max)
  {
    hide AfterKw2, AfterKw4, Xor, G;
    LayerKeysKept(k, max, 8);
    LayerKeysKept(k, max, 16);
    LayerKeysKept(k, max, max + 1);
    if max == 32 {
      LayerKeysKept(k, max, 24);
    }
  }

  /** The constants a subkey has picked up in all. */
  function AbsorbedAt(k: seq<Half>, max: nat, j: nat): Half
    requires (max == 24 || max == 32) && |k| == max + 2 && j < |k|
  {
    if j % 2 == 0 && !(max == 24 && j == 24) && j != 32 then Kw4At(k, max, j) else Kw2At(k, max, j)
  }

  lemma AbsorbedIs(k: seq<Half>, max: nat, j: nat)
    requires (max == 24 || max == 32) && |k| == max + 2 && j < |k| && j != 1
    ensures Absorbed(k, max)[j] == AbsorbedAt(k, max, j)
  {
    hide AfterKw2, AfterKw4, Xor, G, C0, C1, C2, W1, W2, W3;
    Kw2Absorbed(k, max, j);
    Kw4Absorbed(AfterKw2(k, max), max, j);
    SameConstants(k, max);
    LayerKeysKept(k, max, max + 1);
  }

  lemma GroupIsAbsorbed(k: seq<Half>, max: nat, i: nat, c: Half, w: Half)
    requires (max == 24 || max == 32) && |k| == max + 2 && i + 8 <= max && i % 8 == 0
    requires c == if i == 0 then C0(k, max) else if i == 8 then C1(k, max) else if i == 16 then C2(k, max)
             else k[max + 1]
    requires w == if i == 0 then k[1] else if i == 8 then W1(k) else if i == 16 then W2(k) else W3(k)
    ensures GroupAbsorbed(k, Absorbed(k, max), i, c, w)
  {
    hide Absorbed, Xor, C0, C1, C2, W1, W2, W3;
    OneAbsorbed(k, max, i, 2, c, w); OneAbsorbed(k, max, i, 3, c, w); OneAbsorbed(k, max, i, 4, c, w);
    OneAbsorbed(k, max, i, 5, c, w); OneAbsorbed(k, max, i, 6, c, w); OneAbsorbed(k, max, i, 7, c, w);
  }

  lemma OneAbsorbed(k: seq<Half>, max: nat, i: nat, e: nat, c: Half, w: Half)
    requires (max == 24 || max == 32) && |k| == max + 2 && i + 8 <= max && i % 8 == 0 && 2 <= e < 8
    requires c == if i == 0 then C0(k, max) else if i == 8 then C1(k, max) else if i == 16 then C2(k, max)
             else k[max + 1]
    requires w == if i == 0 then k[1] else if i == 8 then W1(k) else if i == 16 then W2(k) else W3(k)
    ensures Absorbed(k, max)[i + e] == Xor(k[i + e], if e % 2 == 0 then c else w)
  {
    hide Absorbed, Xor, C0, C1, C2, W1, W2, W3;
    AbsorbedIs(k, max, i + e);
  }

  // ----- constants cancel -----

  lemma SumCancels(a: Half, b: Half, c: Half)
    ensures Xor(Xor(a, c), Xor(b, c)) == Xor(a, b)
  {
    hide Xor;
    XorComm(b, c);
    XorCancel(a, c, b);
  }

  /** A constant that has passed the layer keyed by `l` cancels against one that has not. */
  lemma LayerCancels(a: Half, b: Half, c: Half, l: Half)
    ensures Xor(G(Xor(a, c), l), Xor(b, G(c, l))) == Xor(G(a, l), b)
    ensures Xor(Xor(b, G(c, l)), G(Xor(a, c), l)) == Xor(b, G(a, l))
  {
    hide Xor, G;
    GLinear(a, c, l);
    SumCancels(G(a, l), b, G(c, l));
    SumCancels(b, G(a, l), G(c, l));
  }

  // ----- the table -----

  /** The table before the P function is undone. */
  function RawTable(t: seq<Half>, s: seq<Half>, max: nat): (r: seq<Half>)
    requires (max == 24 || max == 32) && |t| == |s| == max + 2
    ensures |r| == |t|
  {
    RawBack(RawSecond(RawFirst(t, s), s), s, max)
  }

  lemma PutGroupAt'(t: seq<Half>, s: seq<Half>, i: nat, first: Half, last: Half, j: nat)
    requires i + 8 <= |t| == |s| && j < |t|
    ensures PutGroup(t, s, i, first, last)[j] ==
            if j == i + 2 then first else if j == i + 7 then last
            else if i + 2 < j < i + 7 then Xor(s[j - 1], s[j + 1]) else t[j]
  {
    hide Xor;
  }

  /** Entry `j` of the table in terms of the absorbed subkeys. */
  function RawAt(s: seq<Half>, max: nat, j: nat): Half
    requires (max == 24 || max == 32) && |s| == max + 2 && j <= max && j != 1
  {
    if j == 0 then Xor(s[0], s[2])
    else if j == max then Xor(s[max], s[max - 1])
    else if j % 8 < 2 then s[j]
    else if j == 2 then s[3]
    else if j % 8 == 2 then Xor(G(s[j - 3], s[j - 1]), s[j + 1])
    else if j == max - 1 then s[j - 1]
    else if j % 8 == 7 then Xor(s[j - 1], G(s[j + 3], s[j + 1]))
    else Xor(s[j - 1], s[j + 1])
  }

  lemma RawFirstIs(t: seq<Half>, s: seq<Half>, j: nat, max: nat)
    requires (max == 24 || max == 32) && |t| == |s| == max + 2 && j < |t| && j != 1
    ensures RawFirst(t, s)[j] == if j < 10 then RawAt(s, max, j) else t[j]
  {
    hide Xor, G, PutGroup;
    PutGroupAt'(Put(t, 0, Xor(s[0], s[2])), s, 0, s[3], Xor(s[6], G(s[10], s[8])), j);
  }

  lemma RawSecondIs(t: seq<Half>, s: seq<Half>, j: nat, max: nat)
    requires (max == 24 || max == 32) && |t| == |s| == max + 2 && j < |t|
    ensures RawSecond(t, s)[j] == if 10 <= j < 18 then RawAt(s, max, j) else t[j]
  {
    hide Xor, G, PutGroup;
    PutGroupAt'(t, s, 8, Xor(G(s[7], s[9]), s[11]), Xor(s[14], G(s[18], s[16])), j);
  }

  lemma RawBackIs(t: seq<Half>, s: seq<Half>, j: nat, max: nat)
    requires (max == 24 || max == 32) && |t| == |s| == max + 2 && j <= max
    ensures RawBack(t, s, max)[j] == if 18 <= j then RawAt(s, max, j) else t[j]
  {
    hide Xor, G, PutGroup;
    if max == 24 {
      PutGroupAt'(t, s, 16, Xor(G(s[15], s[17]), s[19]), s[22], j);
    } else {
      var last := Xor(s[22], G(s[26], s[24]));
      var e := PutGroup(t, s, 16, Xor(G(s[15], s[17]), s[19]), last);
      PutGroupAt'(t, s, 16, Xor(G(s[15], s[17]), s[19]), last, j);
      PutGroupAt'(Put(Put(e, 24, s[24]), 25, s[25]), s, 24, Xor(G(s[23], s[25]), s[27]), s[30], j);
    }
  }

  lemma RawTableIs(t: seq<Half>, s: seq<Half>, max: nat, j: nat)
    requires (max == 24 || max == 32) && |t| == |s| == max + 2 && j <= max && j != 1
    ensures RawTable(t, s, max)[j] == RawAt(s, max, j)
  {
    hide RawAt, RawFirst, RawSecond, RawBack;
    RawFirstIs(t, s, j, max);
    RawSecondIs(RawFirst(t, s), s, j, max);
    RawBackIs(RawSecond(RawFirst(t, s), s), s, j, max);
  }

  ghost predicate Finished(t: seq<Half>, s: seq<Half>, max: nat)
    requires (max == 24 || max == 32) && |t| == |s| == max + 2
  {
    forall j :: 0 <= j <= max && j != 1 ==>
      t[j] == if IsRoundKey(j, max) then PInv(RawAt(s, max, j)) else RawAt(s, max, j)
  }

  lemma RawInner(s: seq<Half>, max: nat, i: nat, j: nat)
    requires (max == 24 || max == 32) && |s| == max + 2 && i % 8 == 0 && i + 8 <= max && i + 2 < j < i + 7
    ensures IsRoundKey(j, max) && RawAt(s, max, j) == Xor(s[j - 1], s[j + 1])
  {
    hide Xor, G;
  }

  lemma RawEdges(s: seq<Half>, max: nat, i: nat)
    requires (max == 24 || max == 32) && |s| == max + 2 && i % 8 == 0 && i + 8 <= max
    ensures IsRoundKey(i + 2, max) && IsRoundKey(i + 7, max)
    ensures RawAt(s, max, i + 2) == if i == 0 then s[3] else Xor(G(s[i - 1], s[i + 1]), s[i + 3])
    ensures RawAt(s, max, i + 7) == if i + 8 == max then s[i + 6] else Xor(s[i + 6], G(s[i + 10], s[i + 8]))
  {
    hide Xor, G;
  }

  lemma GroupClosed(k: seq<Half>, s: seq<Half>, t: seq<Half>, max: nat, i: nat, c: Half, w: Half, z: Half, u: Half)
    requires (max == 24 || max == 32) && |k| == |s| == |t| == max + 2 && i % 8 == 0 && i + 8 <= max
    requires Finished(t, s, max) && GroupAbsorbed(k, s, i, c, w)
    requires RawAt(s, max, i + 2) == Xor(z, k[i + 3]) && RawAt(s, max, i + 7) == Xor(k[i + 6], u)
    ensures GroupKeys(k, t, i, z, u)
  {
    hide Xor, PInv, RawAt, IsRoundKey;
    RawEdges(s, max, i);
    RawInner(s, max, i, i + 3); SumCancels(k[i + 2], k[i + 4], c);
    RawInner(s, max, i, i + 4); SumCancels(k[i + 3], k[i + 5], w);
    RawInner(s, max, i, i + 5); SumCancels(k[i + 4], k[i + 6], c);
    RawInner(s, max, i, i + 6); SumCancels(k[i + 5], k[i + 7], w);
  }

  /** The layers around a group: `w'` enters it from above, `c'` from below. */
  lemma InnerGroupClosed(k: seq<Half>, s: seq<Half>, t: seq<Half>, max: nat, i: nat, c: Half, w: Half, c': Half,
                         w': Half)
    requires (max == 24 || max == 32) && |k| == |s| == |t| == max + 2 && i % 8 == 0 && i + 8 <= max
    requires Finished(t, s, max) && GroupAbsorbed(k, s, i, c, w)
    requires if i == 0 then w == k[1]
             else w == G(w', k[i + 1]) && s[i - 1] == Xor(k[i - 1], w') && s[i + 1] == k[i + 1]
    requires if i + 8 == max then c == k[max + 1]
             else c == G(c', k[i + 8]) && s[i + 10] == Xor(k[i + 10], c') && s[i + 8] == k[i + 8]
    ensures GroupKeys(k, t, i, if i == 0 then k[1] else G(k[i - 1], k[i + 1]),
                      if i + 8 == max then k[max + 1] else G(k[i + 10], k[i + 8]))
  {
    hide Xor, G, PInv, RawAt, IsRoundKey, GroupKeys, Finished;
    RawEdges(s, max, i);
    if i == 0 {
      XorComm(k[3], k[1]);
    } else {
      LayerCancels(k[i - 1], k[i + 3], w', k[i + 1]);
    }
    if i + 8 < max {
      LayerCancels(k[i + 10], k[i + 6], c', k[i + 8]);
    }
    GroupClosed(k, s, t, max, i, c, w, if i == 0 then k[1] else G(k[i - 1], k[i + 1]),
                if i + 8 == max then k[max + 1] else G(k[i + 10], k[i + 8]));
  }

  lemma RawOuter(s: seq<Half>, max: nat)
    requires (max == 24 || max == 32) && |s| == max + 2
    ensures !IsRoundKey(0, max) && RawAt(s, max, 0) == Xor(s[0], s[2])
    ensures !IsRoundKey(max, max) && RawAt(s, max, max) == Xor(s[max], s[max - 1])
    ensures !IsRoundKey(8, max) && RawAt(s, max, 8) == s[8] && !IsRoundKey(9, max) && RawAt(s, max, 9) == s[9]
    ensures !IsRoundKey(16, max) && RawAt(s, max, 16) == s[16] && !IsRoundKey(17, max) && RawAt(s, max, 17) == s[17]
    ensures max == 32 ==>
            !IsRoundKey(24, max) && RawAt(s, max, 24) == s[24] && !IsRoundKey(25, max) && RawAt(s, max, 25) == s[25]
  {
    hide Xor, G;
  }

  lemma OuterClosed(k: seq<Half>, t: seq<Half>, max: nat)
    requires (max == 24 || max == 32) && |k| == |t| == max + 2 && Finished(t, Absorbed(k, max), max)
    ensures t[0] == Xor(k[0], k[2]) && t[max] == Xor(k[max], k[max - 1])
    ensures t[8] == k[8] && t[9] == k[9] && t[16] == k[16] && t[17] == k[17]
    ensures max == 32 ==> t[24] == k[24] && t[25] == k[25]
  {
    hide Xor, PInv, Absorbed, RawAt, IsRoundKey;
    RawOuter(Absorbed(k, max), max);
    WhiteningCancels(k, max);
    LayerKeysKept(k, max, 8); LayerKeysKept(k, max, 9); LayerKeysKept(k, max, 16); LayerKeysKept(k, max, 17);
    if max == 32 {
      LayerKeysKept(k, max, 24); LayerKeysKept(k, max, 25);
    }
  }

  lemma WhiteningCancels(k: seq<Half>, max: nat)
    requires (max == 24 || max == 32) && |k| == max + 2
    ensures var s := Absorbed(k, max);
            Xor(s[0], s[2]) == Xor(k[0], k[2]) && Xor(s[max], s[max - 1]) == Xor(k[max], k[max - 1])
  {
    hide Xor, Absorbed, W1, W2, W3, C0, C1, C2;
    AbsorbedIs(k, max, 0); AbsorbedIs(k, max, 2);
    SumCancels(k[0], k[2], C0(k, max));
    AbsorbedIs(k, max, max); AbsorbedIs(k, max, max - 1);
    SumCancels(k[max], k[max - 1], if max == 24 then W2(k) else W3(k));
  }

  lemma FrontGroupsClosed(k: seq<Half>, t: seq<Half>, max: nat)
    requires (max == 24 || max == 32) && |k| == |t| == max + 2 && Finished(t, Absorbed(k, max), max)
    ensures GroupKeys(k, t, 0, k[1], G(k[10], k[8]))
    ensures GroupKeys(k, t, 8, G(k[7], k[9]), G(k[18], k[16]))
  {
    hide GroupKeys, Finished, Absorbed, G;
    FirstGroupClosed(k, t, max);
    SecondGroupClosed(k, t, max);
  }

  lemma Constants(k: seq<Half>, max: nat)
    requires (max == 24 || max == 32) && |k| == max + 2
    ensures C0(k, max) == G(C1(k, max), k[8]) && C1(k, max) == G(C2(k, max), k[16]) && W1(k) == G(k[1], k[9])
  {
    hide G, C2;
  }

  lemma FirstGroupClosed(k: seq<Half>, t: seq<Half>, max: nat)
    requires (max == 24 || max == 32) && |k| == |t| == max + 2 && Finished(t, Absorbed(k, max), max)
    ensures GroupKeys(k, t, 0, k[1], G(k[10], k[8]))
  {
    hide Xor, G, PInv, Absorbed, GroupKeys, GroupAbsorbed, Finished, C0, C1, W1;
    var c0, c1 := C0(k, max), C1(k, max);
    Constants(k, max);
    GroupIsAbsorbed(k, max, 0, c0, k[1]);
    OneAbsorbed(k, max, 8, 2, c1, W1(k));
    LayerKeysKept(k, max, 8);
    InnerGroupClosed(k, Absorbed(k, max), t, max, 0, c0, k[1], c1, k[1]);
  }

  lemma SecondGroupClosed(k: seq<Half>, t: seq<Half>, max: nat)
    requires (max == 24 || max == 32) && |k| == |t| == max + 2 && Finished(t, Absorbed(k, max), max)
    ensures GroupKeys(k, t, 8, G(k[7], k[9]), G(k[18], k[16]))
  {
    hide Xor, G, PInv, Absorbed, GroupKeys, GroupAbsorbed, Finished, C0, C1, C2, W1, W2;
    var c1, c2, w1 := C1(k, max), C2(k, max), W1(k);
    Constants(k, max);
    OneAbsorbed(k, max, 0, 7, C0(k, max), k[1]);
    GroupIsAbsorbed(k, max, 8, c1, w1);
    OneAbsorbed(k, max, 16, 2, c2, W2(k));
    LayerKeysKept(k, max, 9); LayerKeysKept(k, max, 16);
    InnerGroupClosed(k, Absorbed(k, max), t, max, 8, c1, w1, c2, k[1]);
  }

  lemma BackGroupsClosed(k: seq<Half>, t: seq<Half>, max: nat)
    requires (max == 24 || max == 32) && |k| == |t| == max + 2 && Finished(t, Absorbed(k, max), max)
    ensures GroupKeys(k, t, 16, G(k[15], k[17]), if max == 32 then G(k[26], k[24]) else k[25])
    ensures max == 32 ==> GroupKeys(k, t, 24, G(k[23], k[25]), k[33])
  {
    hide Xor, G, PInv, Absorbed, GroupKeys, Finished, C0, C1, W1;
    var s := Absorbed(k, max);
    var c2, w1, w2 := C2(k, max), W1(k), W2(k);
    GroupIsAbsorbed(k, max, 8, C1(k, max), w1);
    GroupIsAbsorbed(k, max, 16, c2, w2);
    LayerKeysKept(k, max, 17);
    if max == 32 {
      GroupIsAbsorbed(k, max, 24, k[33], W3(k));
      LayerKeysKept(k, max, 24); LayerKeysKept(k, max, 25);
      InnerGroupClosed(k, s, t, max, 16, c2, w2, k[33], w1);
      InnerGroupClosed(k, s, t, max, 24, k[33], W3(k), k[33], w2);
    } else {
      InnerGroupClosed(k, s, t, max, 16, c2, w2, c2, w1);
    }
  }

  /** Whatever the subkeys, all absorbed constants cancel out of the finished table. */
  lemma TableIsClosed(k: seq<Half>, t: seq<Half>, max: nat)
    requires (max == 24 || max == 32) && |k| == |t| == max + 2 && Finished(t, Absorbed(k, max), max)
    ensures IsTable(k, t, max)
  {
    hide Xor, G, PInv, Absorbed, GroupKeys, Finished;
    OuterClosed(k, t, max);
    FrontGroupsClosed(k, t, max);
    BackGroupsClosed(k, t, max);
  }

  /** `camellia_setup_tail`. */
  method SetupTail(subkey: array<Word>, subL: array<Word>, subR: array<Word>, max: nat)
    requires (max == 24 || max == 32) && subkey.Length == 2 * (max + 2) && subL.Length == subR.Length == max + 2
    requires subkey != subL && subkey != subR && subL != subR
    modifies subkey, subL, subR
    ensures IsTable(old(Subs(subL, subR)), Table(subkey), max)
  {
    hide AfterKw2, AfterKw4, RawFirst, RawSecond, RawBack, RawAt, IsTable, PInv, Table, Subs;
    ghost var k, t := Subs(subL, subR), Table(subkey);
    AbsorbKw2(subL, subR, max);
    AbsorbKw4(subL, subR, max);
    WriteFirst(subkey, subL, subR);
    WriteSecond(subkey, subL, subR);
    WriteBack(subkey, subL, subR, max);
    assert Table(subkey) == RawTable(t, Absorbed(k, max), max);
    InvertRoundKeys(subkey, max);
    forall j | 0 <= j <= max && j != 1
      ensures Table(subkey)[j] ==
              if IsRoundKey(j, max) then PInv(RawAt(Absorbed(k, max), max, j)) else RawAt(Absorbed(k, max), max, j)
    {
      RawTableIs(t, Absorbed(k, max), max, j);
    }
    TableIsClosed(k, Table(subkey), max);
  }
}
