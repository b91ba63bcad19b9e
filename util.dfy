/** aws/util.go: decoding of optional SDK fields. */
module AwsUtil {
  import opened Wrappers
  import opened Ec2

  type Byte = x: int | 0 <= x < 256

  /** The low byte of an EC2 state code that means "running". */
  const InstanceRunning: Byte := 16

  /** The unsigned value of an int32's two's complement bit pattern. */
  function TwosComplement(c: Int32): (u: nat)
    ensures u < 0x1_0000_0000
  {
    if c < 0 then c + 0x1_0000_0000 else c
  }

  function Pow2(k: nat): (r: nat)
    ensures r >= 1
  {
    if k == 0 then 1 else 2 * Pow2(k - 1)
  }

  /** Go's `&` on non-negative integers, bit by bit from the least significant. */
  function BitAnd(a: nat, b: nat): nat
  {
    if a == 0 || b == 0 then 0 else 2 * BitAnd(a / 2, b / 2) + (a % 2) * (b % 2)
  }

  /** The state byte of an optional state code: nil reads as 0, otherwise the
      code is masked to its low eight bits, so that reason bits in the high
      byte are ignored. */
  function InstanceState(vp: Option<Int32>): (r: Byte)
    ensures vp == None ==> r == 0
    ensures vp.Some? ==> (vp.value - r) % 256 == 0
  {
    if vp == None then 0 else vp.value % 256
  }

  /** The byte agrees with Go's `byte(c & 0xff)` taken on the two's
      complement bits, negative codes included. */
  lemma InstanceStateIsMaskedBits(c: Int32)
    ensures InstanceState(Some(c)) == BitAnd(TwosComplement(c), 0xFF)
  {
    var u := TwosComplement(c);
    MaskLowBits(u, 8);
    assert Pow2(8) == 256;
    assert u % 256 == c % 256 by {
      if c < 0 {
        ModUnique(u, 256, c / 256 + 0x100_0000, c % 256);
      }
    }
  }

  /** Masking with 2^k - 1 keeps the k low bits. */
  lemma {:induction false} MaskLowBits(u: nat, k: nat)
    ensures BitAnd(u, Pow2(k) - 1) == u % Pow2(k)
    decreases k
  {
    if k == 0 {
      assert Pow2(k) == 1;
    } else if u == 0 {
      assert BitAnd(u, Pow2(k) - 1) == 0;
    } else {
      var m := Pow2(k - 1);
      var mask := Pow2(k) - 1;
      assert mask / 2 == m - 1 && mask % 2 == 1;
      MaskLowBits(u / 2, k - 1);
      calc {
        BitAnd(u, mask);
        2 * BitAnd(u / 2, m - 1) + u % 2;
        2 * ((u / 2) % m) + u % 2;
        { DivModStep(u, m); }
        u % (2 * m);
      }
    }
  }

  lemma DivModStep(u: nat, m: nat)
    requires m >= 1
    ensures 2 * ((u / 2) % m) + u % 2 == u % (2 * m)
  {
    var q := (u / 2) / m;
    var r := (u / 2) % m;
    assert u / 2 == m * q + r;
    assert u == (2 * m) * q + (2 * r + u % 2);
    ModUnique(u, 2 * m, q, 2 * r + u % 2);
  }

  /** The remainder is the only r in [0, d) with u == d * q + r. */
  lemma ModUnique(u: int, d: int, q: int, r: int)
    requires d > 0 && 0 <= r < d && u == d * q + r
    ensures u % d == r
  {
    var q0, r0 := u / d, u % d;
    assert u == d * q0 + r0;
    var k := q - q0;
    assert d * q == d * q0 + d * k;
    assert d * k == r0 - r;
    if k >= 1 {
      MulAtLeast(d, k);
    } else if k <= -1 {
      MulAtLeast(d, -k);
    }
  }

  lemma MulAtLeast(d: int, k: int)
    requires d > 0 && k >= 1
    ensures d * k >= d
  {
    assert d * k == d + d * (k - 1);
  }

  /** An instance state code is "running" exactly when its low byte is 16,
      whatever the reason bits above it. */
  lemma RunningIffLowByte(c: Int32, hi: int, lo: Byte)
    requires c == hi * 256 + lo
    ensures InstanceState(Some(c)) == lo
    ensures InstanceState(Some(c)) == InstanceRunning <==> lo == 16
  {
    ModUnique(c, 256, hi, lo);
  }

  /** The dereferenced string, or "" for nil. */
  function DrefStr(s: Option<string>): (r: string)
    ensures s == None ==> r == ""
    ensures s.Some? ==> r == s.value
  {
    if s == None then "" else s.value
  }
}
