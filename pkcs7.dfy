/** PKCS#7 padding (section 6.3 of RFC 5652) to a 16-byte block, as
    `Crypto.Util.Padding.pad` and `unpad` apply it. */
module Pkcs7 {
  import opened Common

  const BlockSize: nat := 16

  /** Appends k copies of the byte k, where k = 16 - (n mod 16) is between 1 and 16. */
  function Pad(data: seq<byte>): (r: seq<byte>)
    ensures |r| == BlockSize * (|data| / BlockSize + 1)
    ensures |r| % BlockSize == 0 && |r| > |data|
    ensures r[..|data|] == data
  {
    var k := BlockSize - |data| % BlockSize;
    data + seq(k, _ => k)
  }

  /** Removes the padding; None where `unpad` raises ValueError: empty input, a
      length that is not a multiple of 16, a last byte outside 1..16, or padding
      bytes that do not all equal it. */
  function Unpad(padded: seq<byte>): (r: Option<seq<byte>>)
    ensures r.Some? ==> |padded| > 0 && |padded| % BlockSize == 0
    ensures r.Some? ==> |padded| - BlockSize <= |r.value| < |padded| && r.value == padded[..|r.value|]
  {
    var n := |padded|;
    if n == 0 || n % BlockSize != 0 then None
    else
      var k := padded[n - 1];
      if k < 1 || k > BlockSize then None
      else if padded[n - k..] != seq(k, _ => k) then None
      else Some(padded[..n - k])
  }

  /** Unpadding undoes padding. */
  lemma UnpadPad(data: seq<byte>)
    ensures Unpad(Pad(data)) == Some(data)
  {
    var k := BlockSize - |data| % BlockSize;
    var p := Pad(data);
    assert p[|p| - 1] == k;
    assert p[|p| - k..] == seq(k, _ => k);
    assert p[..|p| - k] == data;
  }
}
