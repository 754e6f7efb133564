/** Unsigned varints as the multiformats specification describes them: seven bits a byte, least
    significant first, in the fewest bytes possible and in at most nine. */
module Varint {
  import opened Methods

  const MAX_BYTES: nat := 9

  datatype Decoded = Done(value: nat, size: nat) | Need | Malformed

  function Encode(n: nat): (s: Bytes)
    ensures s != []
  {
    if n < 128 then [n as byte] else [(128 + n % 128) as byte] + Encode(n / 128)
  }

  /** Reads a number from the front of `s`, `i` bytes of which were read before. */
  function DecodeAt(s: Bytes, i: nat): (r: Decoded)
    ensures r.Done? ==> 0 < r.size <= |s|
  {
    if s == [] then Need
    else if s[0] < 128 then
      if s[0] == 0 && i > 0 then Malformed else Done(s[0] as nat, 1)
    else if i + 1 >= MAX_BYTES then Malformed
    else
      match DecodeAt(s[1..], i + 1)
      case Done(v, k) => Done(s[0] as nat - 128 + 128 * v, k + 1)
      case r => r
  }

  function Decode(s: Bytes): (r: Decoded)
    ensures r.Done? ==> 0 < r.size <= |s|
  {
    DecodeAt(s, 0)
  }

  /** Reading back what was written, whatever follows. */
  lemma {:induction false} RoundTrip(n: nat, i: nat, t: Bytes)
    requires |Encode(n)| + i <= MAX_BYTES && (i > 0 ==> n > 0)
    ensures DecodeAt(Encode(n) + t, i) == Done(n, |Encode(n)|)
  {
    var s := Encode(n) + t;
    if n >= 128 {
      RoundTrip(n / 128, i + 1, t);
      assert s[1..] == Encode(n / 128) + t;
    }
  }

  /** A proper prefix of a number asks for more bytes. */
  lemma {:induction false} Truncated(n: nat, k: nat, i: nat)
    requires k < |Encode(n)| && |Encode(n)| + i <= MAX_BYTES
    ensures DecodeAt(Encode(n)[..k], i) == Need
  {
    if k > 0 {
      assert Encode(n)[..k][1..] == Encode(n / 128)[..k - 1];
      Truncated(n / 128, k - 1, i + 1);
    }
  }

  /** Once a number or an error is read, further bytes do not change it. */
  lemma {:induction false} Stable(s: Bytes, t: Bytes, i: nat)
    requires DecodeAt(s, i) != Need
    ensures DecodeAt(s + t, i) == DecodeAt(s, i)
  {
    if s[0] >= 128 && i + 1 < MAX_BYTES {
      assert (s + t)[1..] == s[1..] + t;
      Stable(s[1..], t, i + 1);
    }
  }

  /** Every number has one encoding only. */
  lemma {:induction false} Canonical(s: Bytes, i: nat)
    requires i < MAX_BYTES && DecodeAt(s, i).Done?
    ensures
      var d := DecodeAt(s, i);
      && s[..d.size] == Encode(d.value)
      && i + d.size <= MAX_BYTES
      && (i > 0 ==> d.value > 0)
  {
    if s[0] >= 128 {
      Canonical(s[1..], i + 1);
      var d, r := DecodeAt(s, i), DecodeAt(s[1..], i + 1);
      assert d.value / 128 == r.value && d.value % 128 == s[0] as nat - 128;
      assert s[..d.size] == [s[0]] + s[1..][..r.size];
    }
  }

  function Pow128(k: nat): nat { if k == 0 then 1 else 128 * Pow128(k - 1) }

  /** Numbers below 128 to the k take at most k bytes. */
  lemma {:induction false} Size(n: nat, k: nat)
    requires k > 0 && n < Pow128(k)
    ensures |Encode(n)| <= k
  {
    if n >= 128 { Size(n / 128, k - 1); }
  }
}
