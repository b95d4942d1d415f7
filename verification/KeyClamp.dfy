/**
 The clamp that turns a digest prefix into a Curve25519 secret key
 (codex-rs/agent-identity/src/lib.rs), and what it means for the number the key stands for.
 */
module KeyClamp {

  const KEY_BYTES: nat := 32

  const TWO_245: nat := 0x200000_00000000_00000000_00000000_00000000_00000000_00000000_00000000
  const TWO_248: nat := 8 * TWO_245
  const TWO_254: nat := 64 * TWO_248
  const TWO_255: nat := 2 * TWO_254

  /** 256^n, the weight of byte `n`. */
  function Weight(n: nat): nat
  {
    if n == 0 then 1 else 256 * Weight(n - 1)
  }

  /** The number `bytes` stands for, least significant byte first. */
  function LittleEndian(bytes: seq<bv8>): nat
  {
    if bytes == [] then 0 else bytes[0] as nat + 256 * LittleEndian(bytes[1..])
  }

  function Clamp(bytes: seq<bv8>): seq<bv8>
    requires |bytes| == KEY_BYTES
  {
    bytes[0 := bytes[0] & 248][31 := (bytes[31] & 127) | 64]
  }

  /** The byte operations of `curve25519_secret_key_from_signing_key`, in place on a copy of the digest's first half. */
  method SecretKeyFromDigest(digest: seq<bv8>) returns (secretKey: array<bv8>)
    requires |digest| == 64
    ensures secretKey.Length == KEY_BYTES
    ensures secretKey[..] == Clamp(digest[..KEY_BYTES])
  {
    secretKey := new bv8[KEY_BYTES](i requires 0 <= i < KEY_BYTES => digest[i]);
    assert secretKey[..] == digest[..KEY_BYTES];
    secretKey[0] := secretKey[0] & 248;
    secretKey[31] := secretKey[31] & 127;
    secretKey[31] := secretKey[31] | 64;
  }

  // ---- bytes ----

  lemma LowByte(b: bv8)
    ensures (b & 248) as nat == b as nat / 8 * 8
  {
  }

  lemma HighByte(b: bv8)
    ensures ((b & 127) | 64) as nat == 64 + b as nat % 64
  {
  }

  // ---- the number ----

  lemma {:induction false} LittleEndianSnoc(bytes: seq<bv8>, b: bv8)
    ensures LittleEndian(bytes + [b]) == LittleEndian(bytes) + Weight(|bytes|) * b as nat
  {
    if bytes == [] {
      assert [b][1..] == [];
    } else {
      assert (bytes + [b])[1..] == bytes[1..] + [b];
      LittleEndianSnoc(bytes[1..], b);
      Regroup(Weight(|bytes| - 1), b as nat);
    }
  }

  lemma Regroup(p: nat, b: nat)
    ensures 256 * (p * b) == (256 * p) * b
  {
  }

  lemma {:induction false} LittleEndianBound(bytes: seq<bv8>)
    ensures LittleEndian(bytes) < Weight(|bytes|)
  {
    if bytes != [] { LittleEndianBound(bytes[1..]); }
  }

  lemma {:induction false} TopWeight()
    ensures Weight(31) == TWO_248
  {
    assert Weight(8) == 0x1_00000000_00000000;
    assert Weight(16) == 0x1_00000000_00000000 * Weight(8);
    assert Weight(24) == 0x1_00000000_00000000 * Weight(16);
  }

  /** A key as its first byte, the thirty in the middle, and the last. */
  lemma {:induction false} KeyValue(bytes: seq<bv8>)
    requires |bytes| == KEY_BYTES
    ensures LittleEndian(bytes) == bytes[0] as nat + 256 * LittleEndian(bytes[1..31]) + TWO_248 * bytes[31] as nat
    ensures bytes[0] as nat + 256 * LittleEndian(bytes[1..31]) < TWO_248
  {
    var front := bytes[..31];
    assert bytes == front + [bytes[31]];
    LittleEndianSnoc(front, bytes[31]);
    assert front[1..] == bytes[1..31];
    LittleEndianBound(front);
    TopWeight();
  }

  /** Rounding the low part down to a multiple of 8 leaves the higher terms alone. */
  lemma {:induction false} ClampArithmetic(b0: nat, middle: nat, b31: nat)
    requires b0 < 256 && b31 < 256 && b0 + 256 * middle < TWO_248
    ensures
      var value := b0 + 256 * middle + TWO_248 * b31;
      b0 / 8 * 8 + 256 * middle + TWO_248 * (64 + b31 % 64) == TWO_254 + value % TWO_254 / 8 * 8
  {
    var k, r := b31 / 64, b31 % 64;
    var m := 32 * middle + TWO_245 * r;
    assert b0 + 256 * middle + TWO_248 * b31 == (b0 + 8 * m) + TWO_254 * k;
    HighBitsDrop(b0 + 8 * m, k);
    RoundDown(b0, m);
  }

  lemma {:induction false} HighBitsDrop(low: nat, high: nat)
    requires low < TWO_254 && high < 4
    ensures (low + TWO_254 * high) % TWO_254 == low
  {
    match high
    case 0 =>
    case 1 =>
    case 2 =>
    case 3 =>
  }

  lemma RoundDown(b: nat, m: nat)
    ensures (b + 8 * m) / 8 * 8 == b / 8 * 8 + 8 * m
  {
  }

  /**
   The clamp as arithmetic: bits 0 to 2 are cleared, bit 255 is cleared, bit 254 is set, and every
   other bit is kept.
   */
  lemma {:induction false} ClampValue(bytes: seq<bv8>)
    requires |bytes| == KEY_BYTES
    ensures LittleEndian(Clamp(bytes)) == TWO_254 + LittleEndian(bytes) % TWO_254 / 8 * 8
  {
    var c := Clamp(bytes);
    KeyValue(bytes);
    KeyValue(c);
    assert c[1..31] == bytes[1..31];
    LowByte(bytes[0]);
    HighByte(bytes[31]);
    ClampArithmetic(bytes[0] as nat, LittleEndian(bytes[1..31]), bytes[31] as nat);
  }

  /** Every clamped key is a multiple of 8 in the range section 5 of RFC 7748 prescribes. */
  lemma {:induction false} ClampedRange(bytes: seq<bv8>)
    requires |bytes| == KEY_BYTES
    ensures LittleEndian(Clamp(bytes)) % 8 == 0
    ensures TWO_254 <= LittleEndian(Clamp(bytes)) <= TWO_255 - 1
  {
    ClampValue(bytes);
  }

  /** Clamping a clamped key changes nothing. */
  lemma {:induction false} ClampIsIdempotent(bytes: seq<bv8>)
    requires |bytes| == KEY_BYTES
    ensures Clamp(Clamp(bytes)) == Clamp(bytes)
  {
    var b, t := bytes[0], bytes[31];
    assert b & 248 & 248 == b & 248;
    assert (((t & 127) | 64) & 127) | 64 == (t & 127) | 64;
  }
}
