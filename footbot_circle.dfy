/**
 * The foot-bot of the circle example sends an ever increasing counter to
 * the eye-bot: every step bytes 0 to 3 of a 10-byte range-and-bearing
 * payload carry the low 32 bits of its 64-bit counter, least significant
 * byte first, and the counter then goes up by one.
 */
module FootBotCircle {
  const UInt64Modulus: nat := 0x1_0000_0000_0000_0000
  const UInt32Modulus: nat := 0x1_0000_0000
  /** The size of the range-and-bearing payload. */
  const PayloadSize: nat := 10

  function Pow256(k: nat): (p: nat)
    ensures p > 0
  {
    if k == 0 then 1 else 256 * Pow256(k - 1)
  }

  /** Byte `k` of `c`: `c` shifted right by 8k bits, masked with 0xff. */
  function Byte(c: nat, k: nat): (b: nat)
    ensures b < 256
  {
    (c / Pow256(k)) % 256
  }

  /**
   * The payload sent for counter `c`: bytes 0 to 3 of the counter, then
   * the zero bytes the buffer is created with.
   */
  function Payload(c: nat): (p: seq<nat>)
    ensures |p| == PayloadSize
    ensures forall k :: 0 <= k < 4 ==> p[k] == Byte(c, k)
    ensures forall k :: 4 <= k < PayloadSize ==> p[k] == 0
    ensures forall k :: 0 <= k < |p| ==> p[k] < 256
  {
    [Byte(c, 0), Byte(c, 1), Byte(c, 2), Byte(c, 3), 0, 0, 0, 0, 0, 0]
  }

  /** Little-endian decoding of a byte sequence. */
  function Decode(bytes: seq<nat>): nat {
    if |bytes| == 0 then 0 else bytes[0] + 256 * Decode(bytes[1..])
  }

  /** A non-zero multiple of a positive number is at least that number in size. */
  lemma MulBounds(d: int, k: int)
    requires d > 0
    ensures k >= 1 ==> d * k >= d
    ensures k <= -1 ==> d * k <= -d
  {
    if k >= 1 {
      assert d * k == d * (k - 1) + d;
      assert d * (k - 1) >= 0;
    } else if k <= -1 {
      assert d * k == -(d * (-k - 1)) - d;
      assert d * (-k - 1) >= 0;
    }
  }

  /** Division and remainder are determined by the defining equation. */
  lemma DivModUnique(x: nat, d: nat, q: nat, r: nat)
    requires d > 0 && r < d && x == d * q + r
    ensures x / d == q && x % d == r
  {
    var q' := x / d;
    var r' := x % d;
    assert d * q' + r' == d * q + r;
    assert d * (q' - q) == d * q' - d * q;
    MulBounds(d, q' - q);
  }

  /** Dividing by a product divides by each factor in turn. */
  lemma DivDiv(x: nat, a: nat, b: nat)
    requires a > 0 && b > 0
    ensures x / (a * b) == (x / a) / b
  {
    var q := x / a;
    var r := x % a;
    var q2 := q / b;
    var r2 := q % b;
    assert x == a * q + r;
    assert q == b * q2 + r2;
    MulFacts(a, b, q2, r2);
    DivModUnique(x, a * b, q2, a * r2 + r);
  }

  /** The products `DivDiv` and `ModSplit` rearrange. */
  lemma MulFacts(a: nat, b: nat, q: nat, r: nat)
    requires r < b
    ensures a * (b * q + r) == (a * b) * q + a * r
    ensures a * r <= a * b - a
  {
    assert a * (b * q + r) == a * (b * q) + a * r;
    assert a * (b * q) == (a * b) * q;
    assert a * r <= a * (b - 1) == a * b - a;
  }

  /** The remainder by 256·m splits into the low byte and the remainder of the rest by m. */
  lemma ModSplit(x: nat, m: nat)
    requires m > 0
    ensures x % (256 * m) == x % 256 + 256 * ((x / 256) % m)
  {
    var q := x / 256;
    var r := x % 256;
    var q2 := q / m;
    var r2 := q % m;
    assert x == 256 * q + r;
    assert q == m * q2 + r2;
    MulFacts(256, m, q2, r2);
    DivModUnique(x, 256 * m, q2, 256 * r2 + r);
  }

  /** The next byte of `c` is the byte before of `c / 256`. */
  lemma ByteShift(c: nat, k: nat)
    ensures Byte(c, k + 1) == Byte(c / 256, k)
  {
    DivDiv(c, 256, Pow256(k));
    assert Pow256(k + 1) == 256 * Pow256(k);
  }

  /** The `n` low bytes of `c`, least significant first. */
  function LowBytes(c: nat, n: nat): (b: seq<nat>)
    ensures |b| == n
  {
    if n == 0 then [] else [Byte(c, 0)] + LowBytes(c / 256, n - 1)
  }

  lemma {:induction false} LowBytesAre(c: nat, n: nat)
    ensures forall k :: 0 <= k < n ==> LowBytes(c, n)[k] == Byte(c, k)
  {
    if n > 0 {
      LowBytesAre(c / 256, n - 1);
      forall k | 0 < k < n
        ensures LowBytes(c, n)[k] == Byte(c, k)
      {
        ByteShift(c, k - 1);
      }
    }
  }

  /** Decoding the `n` low bytes of `c` gives `c` modulo 256^n. */
  lemma {:induction false} DecodeLowBytes(c: nat, n: nat)
    ensures Decode(LowBytes(c, n)) == c % Pow256(n)
  {
    if n > 0 {
      DecodeLowBytes(c / 256, n - 1);
      var b := LowBytes(c, n);
      assert b[1..] == LowBytes(c / 256, n - 1);
      ModSplit(c, Pow256(n - 1));
    }
  }

  /** Decoding bytes 0 to 3 of the payload gives the counter modulo 2^32. */
  lemma DecodePayload(c: nat)
    ensures Decode(Payload(c)[..4]) == c % UInt32Modulus
  {
    LowBytesAre(c, 4);
    assert Payload(c)[..4] == LowBytes(c, 4);
    DecodeLowBytes(c, 4);
    assert Pow256(4) == UInt32Modulus;
  }

  /** Successive counters decode to successive values, modulo 2^32. */
  lemma SuccessivePayloads(c: nat)
    ensures Decode(Payload(c + 1)[..4]) == (Decode(Payload(c)[..4]) + 1) % UInt32Modulus
  {
    DecodePayload(c);
    DecodePayload(c + 1);
    ModSuccessor(c, UInt32Modulus);
  }

  lemma ModSuccessor(c: nat, m: nat)
    requires m > 0
    ensures (c + 1) % m == (c % m + 1) % m
  {
    DivModUnique(c, m, c / m, c % m);
    if c % m + 1 < m {
      DivModUnique(c + 1, m, c / m, c % m + 1);
      DivModUnique(c % m + 1, m, 0, c % m + 1);
    } else {
      DivModUnique(c + 1, m, c / m + 1, 0);
      DivModUnique(c % m + 1, m, 1, 0);
    }
  }

  class FootBotCircle {
    /** The counter is not initialised before the first reset. */
    var counter: nat
    /** The payload last handed to the range-and-bearing actuator. */
    var sent: seq<nat>

    predicate Valid() reads this {
      counter < UInt64Modulus
    }

    constructor()
      ensures sent == []
    {
      sent := [];
    }

    method Reset()
      modifies this`counter
      ensures counter == 0 && Valid()
    {
      counter := 0;
    }

    /** Sends the counter and increments it, wrapping around at 2^64. */
    method ControlStep()
      requires Valid()
      modifies this`counter, this`sent
      ensures sent == Payload(old(counter))
      ensures counter == (old(counter) + 1) % UInt64Modulus && Valid()
    {
      sent := [Byte(counter, 0), Byte(counter, 1), Byte(counter, 2), Byte(counter, 3), 0, 0, 0, 0, 0, 0];
      counter := (counter + 1) % UInt64Modulus;
    }
  }
}
