/**
  Fixed-width unsigned integers, public keys, and the little-endian byte encoding
  that Rust's `to_le_bytes`/`from_le_bytes` and Borsh use for integers.
*/
module Bytes {

  type uint8 = x: int | 0 <= x < 0x100
  type uint16 = x: int | 0 <= x < 0x1_0000
  type uint32 = x: int | 0 <= x < 0x1_0000_0000
  type uint64 = x: int | 0 <= x < 0x1_0000_0000_0000_0000

  const KeyLen: nat := 32

  /** A `Pubkey`: 32 raw bytes. */
  type Pubkey = s: seq<uint8> | |s| == KeyLen witness ZeroKey()

  function ZeroKey(): (k: seq<uint8>)
    ensures |k| == KeyLen
  {
    seq(KeyLen, _ => 0)
  }

  function Pow256(n: nat): (p: nat)
    ensures p > 0
  {
    if n == 0 then 1 else 256 * Pow256(n - 1)
  }

  lemma Pow256Widths()
    ensures Pow256(1) == 0x100
    ensures Pow256(2) == 0x1_0000
    ensures Pow256(8) == 0x1_0000_0000_0000_0000
  {
  }

  /** The number a little-endian byte string stands for (`from_le_bytes`). */
  function LeValue(s: seq<uint8>): (v: nat)
    ensures v < Pow256(|s|)
  {
    if s == [] then 0 else s[0] + 256 * LeValue(s[1..])
  }

  /** The `n`-byte little-endian encoding of `x` (`to_le_bytes`). */
  function LeBytes(x: nat, n: nat): (s: seq<uint8>)
    requires x < Pow256(n)
    ensures |s| == n
  {
    if n == 0 then [] else [x % 256] + LeBytes(x / 256, n - 1)
  }

  lemma {:induction false} LeValueOfLeBytes(x: nat, n: nat)
    requires x < Pow256(n)
    ensures LeValue(LeBytes(x, n)) == x
  {
    if n > 0 {
      LeValueOfLeBytes(x / 256, n - 1);
      assert LeBytes(x, n)[1..] == LeBytes(x / 256, n - 1);
    }
  }

  lemma {:induction false} LeBytesOfLeValue(s: seq<uint8>)
    ensures LeBytes(LeValue(s), |s|) == s
  {
    if s != [] {
      var v := LeValue(s[1..]);
      LeBytesOfLeValue(s[1..]);
      assert (s[0] + 256 * v) % 256 == s[0];
      assert (s[0] + 256 * v) / 256 == v;
    }
  }

  /** `u16::to_le_bytes`. */
  function U16ToLe(x: uint16): (s: seq<uint8>)
    ensures |s| == 2
  {
    Pow256Widths();
    LeBytes(x, 2)
  }

  /** `u16::from_le_bytes`. */
  function U16FromLe(s: seq<uint8>): uint16
    requires |s| == 2
  {
    Pow256Widths();
    LeValue(s)
  }

  /** `u64::to_le_bytes`. */
  function U64ToLe(x: uint64): (s: seq<uint8>)
    ensures |s| == 8
  {
    Pow256Widths();
    LeBytes(x, 8)
  }

  /** `u64::from_le_bytes`. */
  function U64FromLe(s: seq<uint8>): uint64
    requires |s| == 8
  {
    Pow256Widths();
    LeValue(s)
  }

  lemma U16RoundTrip(x: uint16)
    ensures U16FromLe(U16ToLe(x)) == x
  {
    Pow256Widths();
    LeValueOfLeBytes(x, 2);
  }

  lemma U16BytesRoundTrip(s: seq<uint8>)
    requires |s| == 2
    ensures U16ToLe(U16FromLe(s)) == s
  {
    LeBytesOfLeValue(s);
  }

  lemma U64RoundTrip(x: uint64)
    ensures U64FromLe(U64ToLe(x)) == x
  {
    Pow256Widths();
    LeValueOfLeBytes(x, 8);
  }

  lemma U64BytesRoundTrip(s: seq<uint8>)
    requires |s| == 8
    ensures U64ToLe(U64FromLe(s)) == s
  {
    LeBytesOfLeValue(s);
  }
}
