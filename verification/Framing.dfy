/** backend/app/security/crypto.py: the length-prefixed framing that compute_integrity_mac authenticates. */
module Framing {
  import opened Basics

  type byte = n: int | 0 <= n < 256
  type bytes = seq<byte>

  /** The parts joined by compute_integrity_mac; the key id is already UTF-8 encoded. */
  datatype MacInput = MacInput(prev: bytes, metadata: bytes, ciphertext: bytes, nonce: bytes, keyId: bytes)

  function Pow256(k: nat): (p: nat)
    ensures p > 0
  {
    if k == 0 then 1 else 256 * Pow256(k - 1)
  }

  /** n.to_bytes(k, "big") without its range check. */
  function ToBytes(n: nat, k: nat): (b: bytes)
    ensures |b| == k
  {
    if k == 0 then [] else ToBytes(n / 256, k - 1) + [n % 256]
  }

  function FromBytes(b: bytes): nat
  {
    if b == [] then 0 else 256 * FromBytes(b[..|b| - 1]) + b[|b| - 1]
  }

  lemma {:induction false} FromToBytes(n: nat, k: nat)
    requires n < Pow256(k)
    ensures FromBytes(ToBytes(n, k)) == n
  {
    if k > 0 {
      FromToBytes(n / 256, k - 1);
      assert ToBytes(n, k)[..k - 1] == ToBytes(n / 256, k - 1);
    }
  }

  lemma {:induction false} ToFromBytes(b: bytes)
    ensures FromBytes(b) < Pow256(|b|)
    ensures ToBytes(FromBytes(b), |b|) == b
  {
    if b != [] {
      ToFromBytes(b[..|b| - 1]);
      assert b == b[..|b| - 1] + [b[|b| - 1]];
    }
  }

  /** One field: its length on k bytes, then its content. */
  function WriteField(field: bytes, k: nat): bytes
  {
    ToBytes(|field|, k) + field
  }

  function ReadField(b: bytes, k: nat): Option<(bytes, bytes)>
  {
    if |b| < k then None
    else
      var n := FromBytes(b[..k]);
      if |b| - k < n then None else Some((b[k..k + n], b[k + n..]))
  }

  lemma ReadWritten(field: bytes, k: nat, rest: bytes)
    requires |field| < Pow256(k)
    ensures ReadField(WriteField(field, k) + rest, k) == Some((field, rest))
  {
    FromToBytes(|field|, k);
    var b := WriteField(field, k) + rest;
    assert b[..k] == ToBytes(|field|, k);
    assert b[k..k + |field|] == field;
    assert b[k + |field|..] == rest;
  }

  lemma WrittenRead(b: bytes, k: nat)
    requires ReadField(b, k).Some?
    ensures var (field, rest) := ReadField(b, k).value;
            WriteField(field, k) + rest == b && |field| < Pow256(k)
  {
    ToFromBytes(b[..k]);
    var (field, rest) := ReadField(b, k).value;
    assert |field| == FromBytes(b[..k]);
    assert b == b[..k] + b[k..k + |field|] + b[k + |field|..];
  }

  /** The joined bytes, or None where int.to_bytes raises OverflowError. */
  function Frame(m: MacInput): Option<bytes>
  {
    if |m.prev| < Pow256(4) && |m.metadata| < Pow256(4) && |m.ciphertext| < Pow256(8) && |m.nonce| < Pow256(4) then
      Some(WriteField(m.prev, 4) + (WriteField(m.metadata, 4) +
           (WriteField(m.ciphertext, 8) + (WriteField(m.nonce, 4) + m.keyId))))
    else None
  }

  /** A reader for the framed bytes; the program itself never parses them back. */
  function Parse(b: bytes): Option<MacInput>
  {
    match ReadField(b, 4)
    case None => None
    case Some((prev, b1)) =>
      match ReadField(b1, 4)
      case None => None
      case Some((metadata, b2)) =>
        match ReadField(b2, 8)
        case None => None
        case Some((ciphertext, b3)) =>
          match ReadField(b3, 4)
          case None => None
          case Some((nonce, keyId)) => Some(MacInput(prev, metadata, ciphertext, nonce, keyId))
  }

  /** The framing is uniquely decodable, and nothing but a frame decodes. */
  lemma ParseInvertsFrame(m: MacInput, b: bytes)
    ensures Frame(m) == Some(b) <==> Parse(b) == Some(m)
  {
    if Frame(m) == Some(b) {
      var b3 := WriteField(m.nonce, 4) + m.keyId;
      var b2 := WriteField(m.ciphertext, 8) + b3;
      var b1 := WriteField(m.metadata, 4) + b2;
      ReadWritten(m.prev, 4, b1);
      ReadWritten(m.metadata, 4, b2);
      ReadWritten(m.ciphertext, 8, b3);
      ReadWritten(m.nonce, 4, m.keyId);
    }
    if Parse(b) == Some(m) {
      WrittenRead(b, 4);
      var b1 := ReadField(b, 4).value.1;
      WrittenRead(b1, 4);
      var b2 := ReadField(b1, 4).value.1;
      WrittenRead(b2, 8);
      var b3 := ReadField(b2, 8).value.1;
      WrittenRead(b3, 4);
    }
  }

  lemma FrameInjective(m: MacInput, n: MacInput)
    requires Frame(m).Some? && Frame(m) == Frame(n)
    ensures m == n
  {
    ParseInvertsFrame(m, Frame(m).value);
    ParseInvertsFrame(n, Frame(m).value);
  }
}
