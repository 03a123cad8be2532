/**
  The encryption around a package's connector: salt, IV and a CBC chain over a padded
  plaintext (section 6.3 of RFC 5652 and section 6.2 of NIST SP 800-38A), for any block
  cipher whose two directions undo each other.
 */
module BeeCipher {
  import opened Basics
  import opened Bytes
  import opened Wrappers
  import BeePackage

  const BLOCK: nat := 16

  type Block = b: seq<Byte> | |b| == BLOCK witness seq(BLOCK, _ => 0)

  /** PBKDF2 and AES: a key from password and salt, and the two directions of the cipher. */
  datatype Cipher<!K> = Cipher(
    derive: (string, Block) -> K,
    encrypt: (K, Block) -> Block,
    decrypt: (K, Block) -> Block)

  ghost predicate Invertible<K(!new)>(c: Cipher<K>) {
    && (forall k: K, b: Block :: c.decrypt(k, c.encrypt(k, b)) == b)
    && (forall k: K, b: Block :: c.encrypt(k, c.decrypt(k, b)) == b)
  }

  // ----- Exclusive or ------------------------------------------------------------------

  function XorBits(a: nat, b: nat, bits: nat): (r: nat)
    ensures r < Pow2(bits)
  {
    if bits == 0 then 0
    else (if a % 2 == b % 2 then 0 else 1) + 2 * XorBits(a / 2, b / 2, bits - 1)
  }

  lemma {:induction false} XorUndone(a: nat, b: nat, bits: nat)
    requires a < Pow2(bits)
    ensures XorBits(XorBits(a, b, bits), b, bits) == a
  {
    if bits > 0 {
      XorUndone(a / 2, b / 2, bits - 1);
      var r := XorBits(a, b, bits);
      assert r / 2 == XorBits(a / 2, b / 2, bits - 1);
    }
  }

  lemma Pow2Of8()
    ensures Pow2(8) == 256
  {
    assert Pow2(8) == 4 * Pow2(6) == 16 * Pow2(4) == 64 * Pow2(2);
  }

  function Xor(a: Block, b: Block): Block {
    Pow2Of8();
    seq(BLOCK, i requires 0 <= i < BLOCK => XorBits(a[i], b[i], 8))
  }

  lemma XorCancels(a: Block, b: Block)
    ensures Xor(Xor(a, b), b) == a
  {
    Pow2Of8();
    forall i | 0 <= i < BLOCK ensures Xor(Xor(a, b), b)[i] == a[i] { XorUndone(a[i], b[i], 8); }
  }

  /** The k-th binary digit of a number, the lowest first. */
  function Bit(n: nat, k: nat): (bit: nat)
    ensures bit < 2
  {
    if k == 0 then n % 2 else Bit(n / 2, k - 1)
  }

  lemma Distribute(p: nat, d: nat, e: nat)
    ensures p * (d + e) == p * d + p * e && (e > 0 ==> p * e >= p)
  {
    if e > 0 { assert p * e == p * (e - 1) + p; }
  }

  /** Quotient and remainder are unique. */
  lemma QuotientOf(p: nat, n: nat, q: nat, t: nat, d: nat, u: nat)
    requires n == p * q + t && t < p
    requires n == p * d + u && u < p
    ensures q == d
  {
    if q < d { Distribute(p, q, d - q); }
    if d < q { Distribute(p, d, q - d); }
  }

  lemma QuotientOfHalf(n: nat, h: nat, p: nat, q: nat, t: nat, d: nat, u: nat)
    requires h == n / 2 && h == p * q + t && t < p
    requires n == 2 * p * d + u && u < 2 * p
    ensures q == d
  {
    assert 2 * p * q == 2 * (p * q);
    QuotientOf(2 * p, n, q, 2 * t + n % 2, d, u);
  }

  lemma Divided(n: nat, p: nat) returns (q: nat, t: nat)
    requires p > 0
    ensures q == n / p && n == p * q + t && t < p
  {
    q, t := n / p, n % p;
  }

  lemma HalfThenDivide(n: nat, p: nat)
    requires p > 0
    ensures n / 2 / p == n / (2 * p)
  {
    var h, m := n / 2, 2 * p;
    var q, t := Divided(h, p);
    var d, u := Divided(n, m);
    assert m * d == 2 * p * d;
    QuotientOfHalf(n, h, p, q, t, d, u);
  }

  /** In arithmetic: the quotient by the k-th power of two, modulo two. */
  lemma {:induction false} BitIsQuotient(n: nat, k: nat)
    ensures Bit(n, k) == n / Pow2(k) % 2
  {
    if k > 0 {
      BitIsQuotient(n / 2, k - 1);
      HalfThenDivide(n, Pow2(k - 1));
    }
  }

  /** A digit of the combination is set if and only if the two digits there differ. */
  lemma {:induction false} XorBitsDiffer(a: nat, b: nat, bits: nat, k: nat)
    requires k < bits
    ensures Bit(XorBits(a, b, bits), k) == 1 <==> Bit(a, k) != Bit(b, k)
  {
    var r := XorBits(a, b, bits);
    assert r % 2 == 1 <==> a % 2 != b % 2;
    assert r / 2 == XorBits(a / 2, b / 2, bits - 1);
    if k > 0 {
      XorBitsDiffer(a / 2, b / 2, bits - 1, k - 1);
    }
  }

  /** The bitwise difference of two blocks. */
  ghost predicate IsDifference(r: Block, a: Block, b: Block) {
    forall i, k | 0 <= i < BLOCK && 0 <= k < 8 :: Bit(r[i], k) == 1 <==> Bit(a[i], k) != Bit(b[i], k)
  }

  lemma XorIsDifference(a: Block, b: Block)
    ensures IsDifference(Xor(a, b), a, b)
  {
    forall i, k | 0 <= i < BLOCK && 0 <= k < 8
      ensures Bit(Xor(a, b)[i], k) == 1 <==> Bit(a[i], k) != Bit(b[i], k)
    {
      XorBitsDiffer(a[i], b[i], 8, k);
    }
  }

  /** A number below 2^bits is known by its digits. */
  lemma {:induction false} KnownByBits(a: nat, b: nat, bits: nat)
    requires a < Pow2(bits) && b < Pow2(bits)
    requires forall k | 0 <= k < bits :: Bit(a, k) == Bit(b, k)
    ensures a == b
  {
    if bits > 0 {
      forall k | 0 <= k < bits - 1 ensures Bit(a / 2, k) == Bit(b / 2, k) {
        assert Bit(a, k + 1) == Bit(b, k + 1);
      }
      KnownByBits(a / 2, b / 2, bits - 1);
      assert Bit(a, 0) == Bit(b, 0);
    }
  }

  /** So a block has only one bitwise difference from another. */
  lemma DifferenceIsXor(r: Block, a: Block, b: Block)
    requires IsDifference(r, a, b)
    ensures r == Xor(a, b)
  {
    Pow2Of8();
    XorIsDifference(a, b);
    forall i | 0 <= i < BLOCK ensures r[i] == Xor(a, b)[i] {
      forall k | 0 <= k < 8 ensures Bit(r[i], k) == Bit(Xor(a, b)[i], k) {
        assert Bit(r[i], k) == 1 <==> Bit(Xor(a, b)[i], k) == 1;
      }
      KnownByBits(r[i], Xor(a, b)[i], 8);
    }
  }

  // ----- Padding -----------------------------------------------------------------------

  predicate Aligned(data: seq<Byte>) {
    |data| % BLOCK == 0
  }

  /** n bytes of value n, for the n in 1..16 that completes the last block. */
  function Pad(plain: seq<Byte>): (padded: seq<Byte>)
    ensures Aligned(padded) && |padded| > 0
  {
    var n := BLOCK - |plain| % BLOCK;
    plain + seq(n, _ => n)
  }

  datatype Error = PasswordRequired | TooShort | NotAligned | InvalidLength | InvalidPadding

  /** pkcs7Unpad, with its constant-time accumulator. */
  method Unpad(data: seq<Byte>) returns (result: Result<seq<Byte>, Error>)
    ensures forall plain :: result == Ok(plain) <==> data == Pad(plain)
    ensures result.Err? ==> result.error in {InvalidLength, InvalidPadding}
  {
    if |data| == 0 || !Aligned(data) { return Err(InvalidLength); }
    PaddingIsLastByte(data);
    var padding: int := data[|data| - 1];
    if padding == 0 || padding > BLOCK || padding > |data| { return Err(InvalidPadding); }
    var invalid: bv8 := 0;
    var from := |data| - padding;
    for i := from to |data|
      invariant invalid == 0 <==> forall k | from <= k < i :: data[k] == padding
    {
      var eq: bv8 := if data[i] == padding then 1 else 0;
      invalid := invalid | (eq ^ 1);
    }
    if invalid != 0 { return Err(InvalidPadding); }
    PadOfFront(data, from);
    result := Ok(data[..from]);
  }

  /** The last byte of padded data tells where the plaintext ends. */
  lemma PaddingIsLastByte(data: seq<Byte>)
    requires |data| > 0
    ensures forall plain | data == Pad(plain) ::
      var n: int := data[|data| - 1];
      && 0 < n <= BLOCK && n <= |data| && plain == data[..|data| - n]
      && forall k | |data| - n <= k < |data| :: data[k] == n
  {
  }

  lemma PadOfFront(data: seq<Byte>, from: nat)
    requires |data| > 0 && Aligned(data) && from < |data| && |data| - from <= BLOCK
    requires forall k | from <= k < |data| :: data[k] == |data| - from
    ensures data == Pad(data[..from])
  {
    assert BLOCK - from % BLOCK == |data| - from;
  }

  // ----- The chain ---------------------------------------------------------------------

  /** Cipher block chaining: each block is combined with the ciphertext block before it. */
  function EncryptChain<K>(c: Cipher<K>, key: K, previous: Block, plain: seq<Byte>): (out: seq<Byte>)
    requires Aligned(plain)
    ensures |out| == |plain|
    decreases |plain|
  {
    if plain == [] then []
    else
      var block := c.encrypt(key, Xor(plain[..BLOCK], previous));
      block + EncryptChain(c, key, block, plain[BLOCK..])
  }

  function DecryptChain<K>(c: Cipher<K>, key: K, previous: Block, data: seq<Byte>): (out: seq<Byte>)
    requires Aligned(data)
    ensures |out| == |data|
    decreases |data|
  {
    if data == [] then []
    else Xor(c.decrypt(key, data[..BLOCK]), previous) + DecryptChain(c, key, data[..BLOCK], data[BLOCK..])
  }

  lemma {:induction false} ChainUndone<K(!new)>(c: Cipher<K>, key: K, previous: Block, plain: seq<Byte>)
    requires Invertible(c) && Aligned(plain)
    ensures DecryptChain(c, key, previous, EncryptChain(c, key, previous, plain)) == plain
    decreases |plain|
  {
    if plain != [] {
      var head: Block := plain[..BLOCK];
      var block := c.encrypt(key, Xor(head, previous));
      var out := EncryptChain(c, key, previous, plain);
      assert out[..BLOCK] == block && out[BLOCK..] == EncryptChain(c, key, block, plain[BLOCK..]);
      ChainUndone(c, key, block, plain[BLOCK..]);
      XorCancels(head, previous);
      assert plain == head + plain[BLOCK..];
    }
  }

  lemma {:induction false} ChainRedone<K(!new)>(c: Cipher<K>, key: K, previous: Block, data: seq<Byte>)
    requires Invertible(c) && Aligned(data)
    ensures EncryptChain(c, key, previous, DecryptChain(c, key, previous, data)) == data
    decreases |data|
  {
    if data != [] {
      var head: Block := data[..BLOCK];
      var out := DecryptChain(c, key, previous, data);
      assert out[..BLOCK] == Xor(c.decrypt(key, head), previous);
      assert out[BLOCK..] == DecryptChain(c, key, head, data[BLOCK..]);
      XorCancels(c.decrypt(key, head), previous);
      ChainRedone(c, key, head, data[BLOCK..]);
      assert data == head + data[BLOCK..];
    }
  }

  function BlockAt(data: seq<Byte>, i: nat): Block
    requires (i + 1) * BLOCK <= |data|
  {
    data[i * BLOCK..(i + 1) * BLOCK]
  }

  lemma BlockOfRest(head: Block, rest: seq<Byte>, i: nat)
    requires i > 0 && (i + 1) * BLOCK <= BLOCK + |rest|
    ensures BlockAt(head + rest, i) == BlockAt(rest, i - 1)
  {
  }

  /**
    Decryption by position: every plaintext block is the bitwise difference of the decrypted
    ciphertext block and the ciphertext block before it, or the IV for the first.
   */
  lemma {:induction false} DecryptedBlock<K>(c: Cipher<K>, key: K, iv: Block, data: seq<Byte>, i: nat)
    requires Aligned(data) && (i + 1) * BLOCK <= |data|
    ensures IsDifference(BlockAt(DecryptChain(c, key, iv, data), i), c.decrypt(key, BlockAt(data, i)),
                         if i == 0 then iv else BlockAt(data, i - 1))
    decreases |data|
  {
    var head: Block, rest := data[..BLOCK], data[BLOCK..];
    var out: Block := Xor(c.decrypt(key, head), iv);
    assert data == head + rest && DecryptChain(c, key, iv, data) == out + DecryptChain(c, key, head, rest);
    if i == 0 {
      XorIsDifference(c.decrypt(key, head), iv);
    } else {
      DecryptedBlock(c, key, head, rest, i - 1);
      BlockOfRest(out, DecryptChain(c, key, head, rest), i);
      BlockOfRest(head, rest, i);
      if i > 1 { BlockOfRest(head, rest, i - 1); }
    }
  }

  /** Encryption by position: the bitwise difference with the block before goes through the cipher. */
  lemma {:induction false} EncryptedBlock<K>(c: Cipher<K>, key: K, iv: Block, plain: seq<Byte>, i: nat, x: Block)
    requires Aligned(plain) && (i + 1) * BLOCK <= |plain|
    requires var out := EncryptChain(c, key, iv, plain);
      IsDifference(x, BlockAt(plain, i), if i == 0 then iv else BlockAt(out, i - 1))
    ensures BlockAt(EncryptChain(c, key, iv, plain), i) == c.encrypt(key, x)
    decreases |plain|
  {
    var head: Block, rest := plain[..BLOCK], plain[BLOCK..];
    var block: Block := c.encrypt(key, Xor(head, iv));
    var tail := EncryptChain(c, key, block, rest);
    assert plain == head + rest && EncryptChain(c, key, iv, plain) == block + tail;
    if i == 0 {
      DifferenceIsXor(x, head, iv);
    } else {
      BlockOfRest(block, tail, i);
      BlockOfRest(head, rest, i);
      if i > 1 { BlockOfRest(block, tail, i - 1); }
      EncryptedBlock(c, key, block, rest, i - 1, x);
    }
  }

  // ----- The envelope ------------------------------------------------------------------

  function Encrypt<K>(c: Cipher<K>, password: string, salt: Block, iv: Block, plain: seq<Byte>): seq<Byte> {
    salt + iv + EncryptChain(c, c.derive(password, salt), iv, Pad(plain))
  }

  /** The data is an envelope around this plaintext under some salt and IV. */
  ghost predicate IsEnvelope<K>(c: Cipher<K>, password: string, data: seq<Byte>, plain: seq<Byte>) {
    exists salt: Block, iv: Block :: data == Encrypt(c, password, salt, iv, plain)
  }

  /**
    decryptBasisBytes: under a non-empty password it opens exactly the envelopes, each to the
    plaintext it was made from.
   */
  method Decrypt<K(!new)>(c: Cipher<K>, password: string, data: seq<Byte>) returns (result: Result<seq<Byte>, Error>)
    requires Invertible(c)
    ensures forall plain :: result == Ok(plain) <==> password != "" && IsEnvelope(c, password, data, plain)
    ensures result == Err(PasswordRequired) <==> password == ""
    ensures result == Err(TooShort) <==> password != "" && |data| < 33
    ensures result == Err(NotAligned) <==> password != "" && |data| >= 33 && !Aligned(data)
  {
    forall plain | IsEnvelope(c, password, data, plain)
      ensures |data| >= 3 * BLOCK && Aligned(data)
      ensures DecryptChain(c, c.derive(password, data[..BLOCK]), data[BLOCK..2 * BLOCK], data[2 * BLOCK..]) == Pad(plain)
    {
      EnvelopeOpens(c, password, data, plain);
    }
    if password == "" { return Err(PasswordRequired); }
    if |data| < BeePackage.ENCRYPTED_MIN_LENGTH { return Err(TooShort); }
    var salt, iv, ciphertext := data[..BLOCK], data[BLOCK..2 * BLOCK], data[2 * BLOCK..];
    if !Aligned(ciphertext) { return Err(NotAligned); }
    var key := c.derive(password, salt);
    var padded := DecryptChain(c, key, iv, ciphertext);
    result := Unpad(padded);
    if result.Ok? {
      ChainRedone(c, key, iv, ciphertext);
      assert data == Encrypt(c, password, salt, iv, result.value);
    }
  }

  lemma EnvelopeOpens<K(!new)>(c: Cipher<K>, password: string, data: seq<Byte>, plain: seq<Byte>)
    requires Invertible(c) && IsEnvelope(c, password, data, plain)
    ensures |data| >= 3 * BLOCK && Aligned(data)
    ensures DecryptChain(c, c.derive(password, data[..BLOCK]), data[BLOCK..2 * BLOCK], data[2 * BLOCK..]) == Pad(plain)
  {
    var salt: Block, iv: Block :| data == Encrypt(c, password, salt, iv, plain);
    assert data[..BLOCK] == salt && data[BLOCK..2 * BLOCK] == iv;
    assert data[2 * BLOCK..] == EncryptChain(c, c.derive(password, salt), iv, Pad(plain));
    ChainUndone(c, c.derive(password, salt), iv, Pad(plain));
  }
}
