/**
  Device addresses: `EnOceanDongle._combine_hex`, which folds a list of bytes
  into one integer, first byte most significant, so that a device's configured
  `dev_id` can be compared with the `sender_int` of a radio packet.
 */
module Address {

  /** One octet of a frame or an address. */
  type Byte = b: nat | b < 256

  /** The weight of the byte that sits `n` places from the right: 256^n. */
  function Pow256(n: nat): (r: nat)
    ensures r >= 1
  {
    if n == 0 then 1 else 256 * Pow256(n - 1)
  }

  /** Big-endian value of a byte list; the empty list is 0. */
  function Combine(bytes: seq<Byte>): nat
  {
    if |bytes| == 0 then 0
    else bytes[0] * Pow256(|bytes| - 1) + Combine(bytes[1..])
  }

  /** The `k`-byte big-endian encoding of `n` (of `n` modulo 256^k). */
  function Bytes(n: nat, k: nat): (r: seq<Byte>)
    ensures |r| == k
  {
    if k == 0 then [] else Bytes(n / 256, k - 1) + [n % 256]
  }

  /** A byte placed above a value smaller than its weight: the sum stays below the next weight. */
  lemma ByteAbove(b: Byte, low: nat, p: nat)
    requires low < p
    ensures b * p + low < 256 * p
  {
    assert b * p <= 255 * p;
  }

  /**
    The loop of `_combine_hex`: it walks the list from its last byte and ors
    byte j, shifted left by 8*i, into the accumulator. Every byte lands on bits
    above the accumulator (second invariant), so the `|=` is an addition.
   */
  method CombineHex(data: seq<Byte>) returns (output: nat)
    ensures output == Combine(data)
    ensures output < Pow256(|data|)
  {
    output := 0;
    var i := 0;
    while i < |data|
      invariant 0 <= i <= |data|
      invariant output == Combine(data[|data| - i..])
      invariant output < Pow256(i)
    {
      var j := data[|data| - 1 - i];
      ghost var rest := data[|data| - i..];
      assert data[|data| - 1 - i..] == [j] + rest;
      CombinePrepend(j, rest);
      ByteAbove(j, output, Pow256(i));
      output := output + j * Pow256(i);
      i := i + 1;
    }
    assert data[|data| - i..] == data;
  }

  /** Prepending a byte puts it above everything else: `[b] + rest` is `b << 8*|rest| | combine(rest)`. */
  lemma CombinePrepend(b: Byte, rest: seq<Byte>)
    ensures Combine([b] + rest) == b * Pow256(|rest|) + Combine(rest)
  {
    assert ([b] + rest)[1..] == rest;
  }

  /** A byte list of length n combines to a value below 256^n. */
  lemma {:induction false} CombineBound(bytes: seq<Byte>)
    ensures Combine(bytes) < Pow256(|bytes|)
  {
    if |bytes| > 0 {
      CombineBound(bytes[1..]);
      ByteAbove(bytes[0], Combine(bytes[1..]), Pow256(|bytes| - 1));
    }
  }

  /** Distributes the shift of a prefix over its leading byte and its tail. */
  lemma ShiftSplit(b: nat, p: nat, c: nat, low: nat)
    ensures b * (256 * p) + c * 256 + low == (b * p + c) * 256 + low
  {
  }

  /** Appending a byte shifts the value one byte up: the Horner form of `Combine`. */
  lemma {:induction false} CombineAppend(bytes: seq<Byte>, b: Byte)
    ensures Combine(bytes + [b]) == Combine(bytes) * 256 + b
  {
    if |bytes| == 0 {
      assert bytes + [b] == [b];
    } else {
      var tail := bytes[1..];
      assert (bytes + [b])[1..] == tail + [b];
      CombineAppend(tail, b);
      var p := Pow256(|tail|);
      assert Pow256(|bytes + [b]| - 1) == 256 * p;
      ShiftSplit(bytes[0], p, Combine(tail), b);
    }
  }

  /** Encoding the combined value back into as many bytes gives the list back. */
  lemma {:induction false} BytesOfCombine(bytes: seq<Byte>)
    ensures Bytes(Combine(bytes), |bytes|) == bytes
  {
    if |bytes| > 0 {
      var front, b := bytes[..|bytes| - 1], bytes[|bytes| - 1];
      assert bytes == front + [b];
      CombineAppend(front, b);
      var n := Combine(bytes);
      assert n / 256 == Combine(front) && n % 256 == b;
      BytesOfCombine(front);
    }
  }

  /** Combining the encoding of a value that fits in k bytes gives the value back. */
  lemma {:induction false} CombineOfBytes(n: nat, k: nat)
    requires n < Pow256(k)
    ensures Combine(Bytes(n, k)) == n
  {
    if k > 0 {
      assert n / 256 < Pow256(k - 1);
      CombineOfBytes(n / 256, k - 1);
      CombineAppend(Bytes(n / 256, k - 1), n % 256);
    }
  }

  /** Addresses of one length are equal exactly when their combined integers are. */
  lemma CombineInjective(a: seq<Byte>, b: seq<Byte>)
    requires |a| == |b|
    ensures Combine(a) == Combine(b) <==> a == b
  {
    if Combine(a) == Combine(b) {
      BytesOfCombine(a);
      BytesOfCombine(b);
    }
  }

  /** [0x01, 0x02, 0x03, 0x04] combines to 0x01020304; a three-byte list is accepted too. */
  lemma CombineExample()
    ensures Combine([0x01, 0x02, 0x03, 0x04]) == 0x01020304
    ensures Combine([0x01, 0x02, 0x03]) == 0x010203
  {
  }
}
