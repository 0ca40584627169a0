/** Password hashing (auth.go): PBKDF2 as section 5.2 of RFC 8018 defines it, and the loop that computes it. */
module Pbkdf2 {

  type Bytes = seq<bv8>

  // ---------- section 5.2 of RFC 8018 ----------

  /** INT(i): four octets, most significant first. Like the conversion to uint32, it keeps the low 32 bits. */
  function Int4(i: nat): (r: Bytes)
    ensures |r| == 4
  {
    var w := i % 0x1_0000_0000;
    [(w / 0x100_0000) as bv8, (w / 0x1_0000 % 0x100) as bv8, (w / 0x100 % 0x100) as bv8, (w % 0x100) as bv8]
  }

  /** The keyed hash always returns `hLen` octets. */
  ghost predicate FixedLength(prf: Bytes -> Bytes, hLen: nat) {
    forall m: Bytes :: |prf(m)| == hLen
  }

  /** U_j of block i, counted from 1. */
  ghost function U(prf: Bytes -> Bytes, salt: Bytes, i: nat, j: nat): Bytes {
    if j <= 1 then prf(salt + Int4(i)) else prf(U(prf, salt, i, j - 1))
  }

  ghost function Xor(a: Bytes, b: Bytes): (r: Bytes)
    requires |a| == |b|
    ensures |r| == |a|
  {
    seq(|a|, k requires 0 <= k < |a| => a[k] ^ b[k])
  }

  /** F(P, S, c, i) = U_1 xor ... xor U_c. */
  ghost function F(prf: Bytes -> Bytes, hLen: nat, salt: Bytes, c: nat, i: nat): (r: Bytes)
    requires FixedLength(prf, hLen)
    ensures |r| == hLen
  {
    if c <= 1 then U(prf, salt, i, 1) else
      var u := U(prf, salt, i, c);
      assert |u| == hLen;
      Xor(F(prf, hLen, salt, c - 1, i), u)
  }

  /** T_1 || ... || T_l. */
  ghost function Blocks(prf: Bytes -> Bytes, hLen: nat, salt: Bytes, c: nat, l: nat): (r: Bytes)
    requires FixedLength(prf, hLen)
  {
    if l == 0 then [] else Blocks(prf, hLen, salt, c, l - 1) + F(prf, hLen, salt, c, l)
  }

  /** l = CEIL(dkLen / hLen): one block more for every started stretch of hLen octets. */
  ghost function Ceil(dkLen: nat, hLen: nat): nat
    requires hLen > 0
  {
    if dkLen == 0 then 0 else 1 + Ceil(if dkLen <= hLen then 0 else dkLen - hLen, hLen)
  }

  /** The derived key: the first dkLen octets of T_1 || ... || T_l. */
  ghost function Key(prf: Bytes -> Bytes, hLen: nat, salt: Bytes, c: nat, dkLen: nat): (dk: Bytes)
    requires hLen > 0 && FixedLength(prf, hLen)
    ensures |dk| == dkLen
  {
    BlocksLength(prf, hLen, salt, c, Ceil(dkLen, hLen));
    CeilIsEnough(dkLen, hLen);
    Blocks(prf, hLen, salt, c, Ceil(dkLen, hLen))[..dkLen]
  }

  lemma {:induction false} BlocksLength(prf: Bytes -> Bytes, hLen: nat, salt: Bytes, c: nat, l: nat)
    requires FixedLength(prf, hLen)
    ensures |Blocks(prf, hLen, salt, c, l)| == l * hLen
  {
    if l > 0 {
      BlocksLength(prf, hLen, salt, c, l - 1);
      assert l * hLen == (l - 1) * hLen + hLen;
    }
  }

  lemma {:induction false} CeilIsEnough(dkLen: nat, hLen: nat)
    requires hLen > 0
    ensures dkLen <= Ceil(dkLen, hLen) * hLen
  {
    if dkLen > hLen {
      CeilIsEnough(dkLen - hLen, hLen);
      assert Ceil(dkLen, hLen) * hLen == Ceil(dkLen - hLen, hLen) * hLen + hLen;
    } else if dkLen > 0 {
      assert Ceil(dkLen, hLen) == 1 + Ceil(0, hLen) == 1;
    }
  }

  /** The rounded-up division of the code is that ceiling. */
  lemma {:induction false} CeilIsDivision(dkLen: nat, hLen: nat)
    requires hLen > 0
    ensures (dkLen + hLen - 1) / hLen == Ceil(dkLen, hLen)
  {
    if dkLen > hLen {
      CeilIsDivision(dkLen - hLen, hLen);
      assert (dkLen - hLen + hLen - 1) + hLen == dkLen + hLen - 1;
      OneMoreDivisor(dkLen - 1, hLen);
    } else if dkLen > 0 {
      assert Ceil(dkLen, hLen) == 1 + Ceil(0, hLen) == 1;
      OneMoreDivisor(dkLen - 1, hLen);
      assert (dkLen - 1) / hLen == 0;
    }
  }

  lemma MultipleIsLarge(d: int, h: nat)
    ensures d >= 1 ==> d * h >= h
  {
  }

  lemma QuotientIsUnique(q: int, q': int, r: int, r': int, h: nat)
    requires 0 <= r < h && 0 <= r' < h && q * h + r == q' * h + r'
    ensures q == q'
  {
    var d := q - q';
    assert d * h == r' - r;
    MultipleIsLarge(d, h);
    MultipleIsLarge(-d, h);
    assert (-d) * h == -(d * h);
  }

  lemma OneMoreDivisor(a: nat, h: nat)
    requires h > 0
    ensures (a + h) / h == a / h + 1
  {
    var q, q' := a / h, (a + h) / h;
    assert (q + 1) * h == q * h + h;
    QuotientIsUnique(q + 1, q', a % h, (a + h) % h, h);
  }

  lemma {:induction false} CeilGrows(n: nat, n': nat, hLen: nat)
    requires hLen > 0 && n <= n'
    ensures Ceil(n, hLen) <= Ceil(n', hLen)
    decreases n'
  {
    if n > 0 {
      CeilGrows(if n <= hLen then 0 else n - hLen, if n' <= hLen then 0 else n' - hLen, hLen);
    }
  }

  lemma {:induction false} MoreBlocksExtend(prf: Bytes -> Bytes, hLen: nat, salt: Bytes, c: nat, l: nat, l': nat)
    requires FixedLength(prf, hLen) && l <= l'
    ensures Blocks(prf, hLen, salt, c, l) <= Blocks(prf, hLen, salt, c, l')
  {
    if l < l' { MoreBlocksExtend(prf, hLen, salt, c, l, l' - 1); }
  }

  /** A shorter key is a prefix of a longer one. */
  lemma ShorterKeyIsPrefix(prf: Bytes -> Bytes, hLen: nat, salt: Bytes, c: nat, n: nat, n': nat)
    requires hLen > 0 && FixedLength(prf, hLen) && n <= n'
    ensures Key(prf, hLen, salt, c, n) == Key(prf, hLen, salt, c, n')[..n]
  {
    CeilGrows(n, n', hLen);
    MoreBlocksExtend(prf, hLen, salt, c, Ceil(n, hLen), Ceil(n', hLen));
    var few, many := Blocks(prf, hLen, salt, c, Ceil(n, hLen)), Blocks(prf, hLen, salt, c, Ceil(n', hLen));
    BlocksLength(prf, hLen, salt, c, Ceil(n, hLen));
    BlocksLength(prf, hLen, salt, c, Ceil(n', hLen));
    CeilIsEnough(n, hLen);
    CeilIsEnough(n', hLen);
    assert few == many[..|few|];
    assert many[..n'][..n] == many[..n] == few[..n];
  }

  // ---------- the loop ----------

  /** XORs `u` into the buffer `t`, octet by octet. */
  method XorInto(t: array<bv8>, u: Bytes)
    requires t.Length == |u|
    modifies t
    ensures t[..] == Xor(old(t[..]), u)
  {
    var k := 0;
    while k < t.Length
      invariant 0 <= k <= t.Length
      invariant forall x :: 0 <= x < k ==> t[x] == old(t[x]) ^ u[x]
      invariant forall x :: k <= x < t.Length ==> t[x] == old(t[x])
    {
      t[k] := t[k] ^ u[k];
      k := k + 1;
    }
  }

  /** copy(t, u). */
  method CopyInto(t: array<bv8>, u: Bytes)
    requires t.Length == |u|
    modifies t
    ensures t[..] == u
  {
    var k := 0;
    while k < t.Length
      invariant 0 <= k <= t.Length && t[..k] == u[..k]
    {
      t[k] := u[k];
      k := k + 1;
    }
  }

  /** One round of the outer loop: the buffer `t` ends up holding T_i. */
  method Block(prf: Bytes -> Bytes, hashLen: nat, salt: Bytes, iter: int, i: nat, t: array<bv8>)
    requires FixedLength(prf, hashLen) && t.Length == hashLen
    modifies t
    ensures t[..] == F(prf, hashLen, salt, if iter < 1 then 1 else iter, i)
  {
    var u := prf(salt + Int4(i));
    assert |u| == hashLen;
    CopyInto(t, u);
    var j := 1;
    while j < iter
      invariant 1 <= j && (j <= iter || j == 1)
      invariant u == U(prf, salt, i, j)
      invariant t[..] == F(prf, hashLen, salt, j, i)
      decreases iter - j
    {
      u := prf(u);
      j := j + 1;
      assert u == U(prf, salt, i, j) && |u| == hashLen;
      XorInto(t, u);
    }
  }

  /** `prf` stands for HMAC under the password; the buffer `t` is shared by all blocks. */
  method Derive(prf: Bytes -> Bytes, hashLen: nat, salt: Bytes, iter: int, keyLen: nat) returns (dk: Bytes)
    requires hashLen > 0 && FixedLength(prf, hashLen)
    ensures dk == Key(prf, hashLen, salt, if iter < 1 then 1 else iter, keyLen)
  {
    ghost var c: nat := if iter < 1 then 1 else iter;
    var numBlocks := (keyLen + hashLen - 1) / hashLen;
    CeilIsDivision(keyLen, hashLen);
    dk := [];
    var t := new bv8[hashLen];
    for i := 1 to numBlocks + 1
      invariant dk == Blocks(prf, hashLen, salt, c, i - 1)
    {
      Block(prf, hashLen, salt, iter, i, t);
      dk := dk + t[..];
    }
    CeilIsEnough(keyLen, hashLen);
    BlocksLength(prf, hashLen, salt, c, numBlocks);
    dk := dk[..keyLen];
  }
}
