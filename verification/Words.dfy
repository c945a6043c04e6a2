/** Machine words and their little-endian byte images, as memcpy of a native word leaves them. */
module Words {

  const TWO_TO_THE_32: int := 0x1_0000_0000
  const TWO_TO_THE_64: int := 0x1_0000_0000_0000_0000

  type byte = x: int | 0 <= x < 0x100
  type u32 = x: int | 0 <= x < 0x1_0000_0000
  type u64 = x: int | 0 <= x < 0x1_0000_0000_0000_0000

  /** What an `int` parameter receives from a 64-bit argument: the low 32 bits, as a signed value. */
  function ToInt(n: u64): (i: int)
    ensures -0x8000_0000 <= i < 0x8000_0000
    ensures n < 0x8000_0000 ==> i == n
  {
    var low := n % TWO_TO_THE_32;
    if low < 0x8000_0000 then low else low - TWO_TO_THE_32
  }

  /** What a uint64_t receives from an `int`: sign extension, modulo 2^64. */
  function FromInt(i: int): (n: u64)
    ensures 0 <= i < TWO_TO_THE_64 ==> n == i
  {
    i % TWO_TO_THE_64
  }

  function Pow256(k: nat): (p: nat)
    ensures p > 0
  {
    if k == 0 then 1 else 256 * Pow256(k - 1)
  }

  function ToBytes(n: nat, k: nat): (s: seq<byte>)
    ensures |s| == k
  {
    if k == 0 then [] else [n % 256] + ToBytes(n / 256, k - 1)
  }

  function Value(s: seq<byte>): nat {
    if s == [] then 0 else s[0] + 256 * Value(s[1..])
  }

  lemma {:induction false} ValueOfBytes(n: nat, k: nat)
    requires n < Pow256(k)
    ensures Value(ToBytes(n, k)) == n
  {
    if k > 0 {
      assert ToBytes(n, k)[1..] == ToBytes(n / 256, k - 1);
      ValueOfBytes(n / 256, k - 1);
    }
  }

  lemma {:induction false} ValueBound(s: seq<byte>)
    ensures Value(s) < Pow256(|s|)
  {
    if s != [] { ValueBound(s[1..]); }
  }

  lemma {:induction false} BytesOfValue(s: seq<byte>)
    ensures ToBytes(Value(s), |s|) == s
  {
    if s != [] {
      BytesOfValue(s[1..]);
      assert Value(s) / 256 == Value(s[1..]) && Value(s) % 256 == s[0];
    }
  }

  lemma ValueInjective(s: seq<byte>, t: seq<byte>)
    requires |s| == |t| && s != t
    ensures Value(s) != Value(t)
  {
    BytesOfValue(s);
    BytesOfValue(t);
  }

  lemma WordSizes()
    ensures Pow256(8) == TWO_TO_THE_64
    ensures Pow256(4) == TWO_TO_THE_32
  {
  }

  /** The `int` is the word modulo 2^32, whatever the word. */
  lemma IntKeepsLowBits(n: u64)
    ensures (n - ToInt(n)) % TWO_TO_THE_32 == 0
  {
  }

  /** The word is the `int` modulo 2^64, whatever its sign. */
  lemma SignExtends(i: int)
    ensures (FromInt(i) - i) % TWO_TO_THE_64 == 0
  {
  }

  /** Which words survive the way through an `int`: the small ones, and the images of negative numbers. */
  lemma SurvivesInt(n: u64)
    ensures FromInt(ToInt(n)) == n <==> n < 0x8000_0000 || n >= TWO_TO_THE_64 - 0x8000_0000
    ensures (FromInt(ToInt(n)) - n) % TWO_TO_THE_32 == 0
  {
  }

  lemma DigitShift(n: nat, p: nat)
    requires p > 0
    ensures n / 256 / p == n / (256 * p)
  {
    var q, r := n / 256, n % 256;
    var a, b := q / p, q % p;
    assert n == (256 * p) * a + (256 * b + r);
    assert 256 * b + r < 256 * p;
    DivisionIs(n, 256 * p, a, 256 * b + r);
  }

  lemma Scaled(d: nat, a: int, b: int)
    requires a <= b
    ensures d * a <= d * b
  {
    assert d * b == d * a + d * (b - a);
  }

  lemma Multiples(d: nat, a: int, q: int)
    ensures a > q ==> d * a >= d * q + d
    ensures a < q ==> d * a + d <= d * q
  {
    if a > q {
      Scaled(d, q + 1, a);
      assert d * (q + 1) == d * q + d;
    } else if a < q {
      Scaled(d, a + 1, q);
      assert d * (a + 1) == d * a + d;
    }
  }

  lemma DivisionIs(n: nat, d: nat, q: nat, r: nat)
    requires r < d && n == d * q + r
    ensures n / d == q
  {
    assert n == d * (n / d) + n % d;
    Multiples(d, n / d, q);
  }

  /** The lowest byte comes first. */
  lemma {:induction false} ByteAt(n: nat, k: nat, i: nat)
    requires i < k
    ensures ToBytes(n, k)[i] == n / Pow256(i) % 256
  {
    if i > 0 {
      ByteAt(n / 256, k - 1, i - 1);
      DigitShift(n, Pow256(i - 1));
    }
  }
}
