/** Cipher block chaining (section 6.2 of NIST SP 800-38A) over an abstract 16-byte
    block cipher: C[i] = E(P[i] xor C[i-1]) with C[0-1] = IV, and
    P[i] = D(C[i]) xor C[i-1]. */
module Cbc {
  import opened Common

  type Block = s: seq<byte> | |s| == 16 witness seq(16, _ => 0)

  /** An AES key is 16, 24 or 32 bytes long. */
  predicate ValidKeyLength(n: int)
  {
    n == 16 || n == 24 || n == 32
  }

  /** The block primitive, keyed; library code, given as functions. */
  datatype BlockCipher = BlockCipher(encrypt: (seq<byte>, Block) -> Block, decrypt: (seq<byte>, Block) -> Block)

  /** Under a valid key, `decrypt` inverts `encrypt`. */
  ghost predicate Lawful(c: BlockCipher)
  {
    forall key: seq<byte>, b: Block :: ValidKeyLength(|key|) ==> c.decrypt(key, c.encrypt(key, b)) == b
  }

  /** Bitwise exclusive or of the low `width` bits of two naturals. */
  function XorBits(a: nat, b: nat, width: nat): (r: nat)
    ensures r < Pow2(width)
  {
    if width == 0 then 0
    else (if a % 2 == b % 2 then 0 else 1) + 2 * XorBits(a / 2, b / 2, width - 1)
  }

  function Pow2(n: nat): (r: nat)
    ensures r > 0
  {
    if n == 0 then 1 else 2 * Pow2(n - 1)
  }

  lemma {:induction false} XorBitsTwice(a: nat, b: nat, width: nat)
    requires a < Pow2(width)
    ensures XorBits(XorBits(a, b, width), b, width) == a
  {
    if width > 0 {
      var x := XorBits(a, b, width);
      XorBitsTwice(a / 2, b / 2, width - 1);
      assert x % 2 == (if a % 2 == b % 2 then 0 else 1);
      assert x / 2 == XorBits(a / 2, b / 2, width - 1);
    }
  }

  function XorByte(a: byte, b: byte): (r: byte)
  {
    assert Pow2(8) == 256;
    XorBits(a, b, 8)
  }

  lemma XorByteTwice(a: byte, b: byte)
    ensures XorByte(XorByte(a, b), b) == a
  {
    assert Pow2(8) == 256;
    XorBitsTwice(a, b, 8);
  }

  function XorBlock(a: Block, b: Block): (r: Block)
  {
    seq(16, k requires 0 <= k < 16 => XorByte(a[k], b[k]))
  }

  lemma XorBlockTwice(a: Block, b: Block)
    ensures XorBlock(XorBlock(a, b), b) == a
  {
    forall k | 0 <= k < 16 ensures XorBlock(XorBlock(a, b), b)[k] == a[k] { XorByteTwice(a[k], b[k]); }
  }

  function Encrypt(c: BlockCipher, key: seq<byte>, prev: Block, plain: seq<byte>): (r: seq<byte>)
    requires |plain| % 16 == 0
    ensures |r| == |plain|
    decreases |plain|
  {
    if |plain| == 0 then []
    else
      var block := c.encrypt(key, XorBlock(plain[..16], prev));
      block + Encrypt(c, key, block, plain[16..])
  }

  /** Decryption of a block-aligned ciphertext; pycryptodome rejects any other
      length (None). */
  function Decrypt(c: BlockCipher, key: seq<byte>, prev: Block, cipher: seq<byte>): (r: Option<seq<byte>>)
    ensures r.Some? <==> |cipher| % 16 == 0
    ensures r.Some? ==> |r.value| == |cipher|
    decreases |cipher|
  {
    if |cipher| % 16 != 0 then None
    else if |cipher| == 0 then Some([])
    else
      var block: Block := cipher[..16];
      match Decrypt(c, key, block, cipher[16..])
      case Some(rest) => Some(XorBlock(c.decrypt(key, block), prev) + rest)
  }

  /** Decrypting under the same key and IV gives the plaintext back. */
  lemma {:induction false} DecryptEncrypt(c: BlockCipher, key: seq<byte>, iv: Block, plain: seq<byte>)
    requires Lawful(c) && ValidKeyLength(|key|) && |plain| % 16 == 0
    ensures Decrypt(c, key, iv, Encrypt(c, key, iv, plain)) == Some(plain)
    decreases |plain|
  {
    if |plain| > 0 {
      var p0: Block := plain[..16];
      var block := c.encrypt(key, XorBlock(p0, iv));
      var e := Encrypt(c, key, iv, plain);
      assert e[..16] == block && e[16..] == Encrypt(c, key, block, plain[16..]);
      DecryptEncrypt(c, key, block, plain[16..]);
      XorBlockTwice(p0, iv);
      assert p0 + plain[16..] == plain;
    }
  }
}
