/** ECDSA over secp256k1 with a fixed nonce and low-s normalisation. */
module FixedKSigners {
  import opened Wrappers
  import opened Arithmetic

  // Order of the group, and half of it.
  const N: nat := 0xFFFFFFFFFFFFFFFFFFFFFFFFFFFFFFFEBAAEDCE6AF48A03BBFD25E8CD0364141
  const HALF_ORDER: nat := 0x7FFFFFFFFFFFFFFFFFFFFFFFFFFFFFFF5D576E7357A4501DDFE92F46681B20A0

  type Scalar = x: nat | x < N

  function Add(a: Scalar, b: Scalar): Scalar { (a + b) % N }

  function Mul(a: Scalar, b: Scalar): Scalar { (a * b) % N }

  function Negate(a: Scalar): Scalar { (N - a) % N }

  // ---------- bytes ----------

  type Byte = b: nat | b < 256

  // Big-endian value.
  function FromBytes(bytes: seq<Byte>): nat {
    if bytes == [] then 0 else FromBytes(bytes[..|bytes| - 1]) * 256 + bytes[|bytes| - 1]
  }

  function ToBytes(v: nat, len: nat): (bytes: seq<Byte>)
    ensures |bytes| == len
  {
    if len == 0 then [] else ToBytes(v / 256, len - 1) + [v % 256]
  }

  function Capacity(len: nat): nat {
    if len == 0 then 1 else Capacity(len - 1) * 256
  }

  // The first byte weighs most.
  lemma {:induction false} FirstByteWeighsMost(b: Byte, rest: seq<Byte>)
    ensures FromBytes([b] + rest) == b * Capacity(|rest|) + FromBytes(rest)
  {
    if rest == [] {
      assert [b] + rest == [b] && [b][..0] == [];
    } else {
      var n := |rest| - 1;
      FirstByteWeighsMost(b, rest[..n]);
      assert ([b] + rest)[..n + 1] == [b] + rest[..n];
      assert b * (Capacity(n) * 256) == b * Capacity(n) * 256;
    }
  }

  lemma {:induction false} BytesRoundTrip(v: nat, len: nat)
    ensures FromBytes(ToBytes(v, len)) == v <==> v < Capacity(len)
    ensures FromBytes(ToBytes(v, len)) < Capacity(len)
  {
    if len > 0 {
      BytesRoundTrip(v / 256, len - 1);
      var high := ToBytes(v / 256, len - 1);
      assert ToBytes(v, len)[..len - 1] == high;
    }
  }

  lemma {:induction false} BytesAreCanonical(bytes: seq<Byte>)
    ensures ToBytes(FromBytes(bytes), |bytes|) == bytes && FromBytes(bytes) < Capacity(|bytes|)
  {
    if bytes != [] {
      var n := |bytes| - 1;
      BytesAreCanonical(bytes[..n]);
      assert bytes == bytes[..n] + [bytes[n]];
    }
  }

  lemma Capacity32()
    ensures Capacity(32) == 0x1_0000000000000000_0000000000000000_0000000000000000_0000000000000000
  {
    assert Capacity(8) == 0x1_0000000000000000;
    assert Capacity(16) == 0x1_0000000000000000_0000000000000000;
    assert Capacity(24) == 0x1_0000000000000000_0000000000000000_0000000000000000;
  }

  // Reduces values at or above the order, and says whether it had to.
  function ScalarFromBytes(bytes: seq<Byte>): (Scalar, bool) {
    var v := FromBytes(bytes);
    if v < N then (v, false) else (v % N, true)
  }

  lemma ScalarIsReduced(bytes: seq<Byte>)
    requires |bytes| == 32
    ensures var (x, overflow) := ScalarFromBytes(bytes);
            FromBytes(bytes) == x + (if overflow then N else 0)
  {
    BytesAreCanonical(bytes);
    Capacity32();
    if FromBytes(bytes) >= N {
      DivUnique(FromBytes(bytes), N, 1);
    }
  }

  // ---------- the curve ----------

  // Points are given by their discrete logarithm: x coordinate, parity of y, inverse modulo the order.
  datatype Curve = Curve(x: Scalar -> nat, yOdd: Scalar -> bool, invert: Scalar -> Scalar)

  // What is used of the curve at k: an inverse, and that -P has the x of P and the other y.
  ghost predicate Lawful(c: Curve, k: Scalar) {
    && Mul(k, c.invert(k)) == 1
    && c.x(k) < Capacity(32)
    && c.x(Negate(k)) == c.x(k)
    && c.yOdd(Negate(k)) == !c.yOdd(k)
  }

  datatype Signature = Signature(r: nat, s: nat, odd: bool)

  function Unnormalized(c: Curve, d: Scalar, z: Scalar, r: Scalar, k: Scalar): Scalar {
    Mul(Add(z, Mul(r, d)), c.invert(k))
  }

  // `x` coordinates at or above the order are refused.
  function Sign(c: Curve, d: Scalar, z: Scalar, k: Scalar): (sig: Option<Signature>)
    ensures sig.Some? ==> sig.value.r < N && sig.value.s <= HALF_ORDER
  {
    if c.x(k) >= N || k == 0 then None
    else
      var r := c.x(k);
      var s := Unnormalized(c, d, z, r, k);
      Some(if s > HALF_ORDER then Signature(r, Negate(s), !c.yOdd(k)) else Signature(r, s, c.yOdd(k)))
  }

  function Encode(g: Signature): seq<Byte> {
    ToBytes(g.r, 32) + ToBytes(g.s, 32) + [if g.odd then 1 else 0]
  }

  function Decode(bytes: seq<Byte>): Signature
    requires |bytes| == 65
  {
    Signature(FromBytes(bytes[..32]), FromBytes(bytes[32..64]), bytes[64] == 1)
  }

  lemma EncodeRoundTrip(g: Signature)
    requires g.r < N && g.s < N
    ensures |Encode(g)| == 65 && Decode(Encode(g)) == g
    ensures FromBytes(Encode(g)[..32]) == g.r && FromBytes(Encode(g)[32..64]) == g.s
    ensures Encode(g)[64] == if g.odd then 1 else 0
  {
    Capacity32();
    BytesRoundTrip(g.r, 32);
    BytesRoundTrip(g.s, 32);
    assert Encode(g)[..32] == ToBytes(g.r, 32);
    assert Encode(g)[32..64] == ToBytes(g.s, 32);
  }

  method SignHashWithFixedK(c: Curve, sk: seq<Byte>, message: seq<Byte>, k: nat)
    returns (res: Option<seq<Byte>>)
    requires |sk| == 32 && |message| == 32 && k < 0x1_0000000000000000_0000000000000000
    requires c.x(k) < Capacity(32)
    ensures var sig := Sign(c, ScalarFromBytes(sk).0, ScalarFromBytes(message).0, k);
            if sig.None? then res == None else res == Some(Encode(sig.value))
  {
    var z := ScalarFromBytes(message).0;
    var d := ScalarFromBytes(sk).0;
    var (r, overflow) := ScalarFromBytes(ToBytes(c.x(k), 32));
    BytesRoundTrip(c.x(k), 32);
    if overflow {
      return None;
    }
    var recoveryId: Byte := if c.yOdd(k) then 1 else 0;
    if k == 0 {
      return None;
    }
    var s := Mul(Add(z, Mul(r, d)), c.invert(k));
    if s > HALF_ORDER {
      s := Negate(s);
      recoveryId := 1 - recoveryId;
    }
    var signature := new Byte[65](_ => 0);
    var rBytes, sBytes := ToBytes(r, 32), ToBytes(s, 32);
    forall i | 0 <= i < 32 {
      signature[i] := rBytes[i];
    }
    forall i | 32 <= i < 64 {
      signature[i] := sBytes[i - 32];
    }
    signature[64] := recoveryId;
    assert signature[..] == rBytes + sBytes + [recoveryId];
    res := Some(signature[..]);
  }

  // k = 1, then k = 2.
  method SignHashDeterministic(c: Curve, sk: seq<Byte>, hash: seq<Byte>) returns (res: Option<Signature>)
    requires |sk| == 32 && |hash| == 32
    requires c.x(1) < Capacity(32) && c.x(2) < Capacity(32)
    ensures var d, z := ScalarFromBytes(sk).0, ScalarFromBytes(hash).0;
            res == if c.x(1) < N then Sign(c, d, z, 1) else Sign(c, d, z, 2)
    ensures res.None? <==> c.x(1) >= N && c.x(2) >= N
  {
    var first := SignHashWithFixedK(c, sk, hash, 1);
    if first.Some? {
      EncodeRoundTrip(Sign(c, ScalarFromBytes(sk).0, ScalarFromBytes(hash).0, 1).value);
      return Some(Decode(first.value));
    }
    var second := SignHashWithFixedK(c, sk, hash, 2);
    if second.Some? {
      EncodeRoundTrip(Sign(c, ScalarFromBytes(sk).0, ScalarFromBytes(hash).0, 2).value);
      return Some(Decode(second.value));
    }
    return None;
  }

  // ---------- scalar laws ----------

  lemma MulCommutes(a: Scalar, b: Scalar)
    ensures Mul(a, b) == Mul(b, a)
  {
  }

  lemma MulAssociates(a: Scalar, b: Scalar, e: Scalar)
    ensures Mul(Mul(a, b), e) == Mul(a, Mul(b, e))
  {
    ModMulLeft(a * b, e, N);
    ModMulLeft(b * e, a, N);
    assert (a * b) * e == (b * e) * a;
  }

  lemma MulDistributes(a: Scalar, b: Scalar, e: Scalar)
    ensures Mul(Add(a, b), e) == Add(Mul(a, e), Mul(b, e))
  {
    var x, y := a * e, b * e;
    assert (a + b) * e == x + y;
    ModMulLeft(a + b, e, N);
    ModAddBoth(x, y, N);
  }

  lemma MulNegate(a: Scalar, b: Scalar)
    ensures Mul(Negate(a), b) == Negate(Mul(a, b))
  {
    ModMulLeft(N - a, b, N);
    assert (N - a) * b == b * N + -(a * b);
    ModShift(-(a * b), N, b);
    NegateOf(a * b);
  }

  lemma NegateOf(v: int)
    requires v >= 0
    ensures (-v) % N == Negate(v % N)
  {
    var q, r := v / N, v % N;
    assert -v == (-q - 1) * N + (N - r);
    ModShift(N - r, N, -q - 1);
  }

  lemma NegateTwice(a: Scalar)
    ensures Negate(Negate(a)) == a
    ensures a + Negate(a) == if a == 0 then 0 else N
  {
  }

  lemma NegateZeroIff(a: Scalar)
    ensures Negate(a) == 0 <==> a == 0
    ensures Add(Negate(a), a) == 0
  {
  }

  lemma MulZero(a: Scalar)
    ensures Mul(0, a) == 0
  {
  }

  lemma MulOne(a: Scalar)
    ensures Mul(a, 1) == a
  {
  }

  // ---------- what a signature proves ----------

  lemma HalfOrder()
    ensures HALF_ORDER == (N - 1) / 2
  {
  }

  // The logarithm of u1 * G + u2 * Q in section 4.1.4 of SEC 1, where w is the inverse of s.
  function Recovered(r: Scalar, d: Scalar, z: Scalar, w: Scalar): Scalar {
    Add(Mul(z, w), Mul(Mul(r, w), d))
  }

  lemma RecoveredIsProduct(r: Scalar, d: Scalar, z: Scalar, w: Scalar)
    ensures Recovered(r, d, z, w) == Mul(Add(z, Mul(r, d)), w)
  {
    MulDistributes(z, Mul(r, d), w);
    MulAssociates(r, d, w);
    MulCommutes(d, w);
    MulAssociates(r, w, d);
  }

  // Dividing by k and multiplying by k again.
  lemma UnnormalizedTimesK(c: Curve, d: Scalar, z: Scalar, r: Scalar, k: Scalar)
    requires Mul(k, c.invert(k)) == 1
    ensures Mul(Unnormalized(c, d, z, r, k), k) == Add(z, Mul(r, d))
  {
    var e := Add(z, Mul(r, d));
    MulAssociates(e, c.invert(k), k);
    MulCommutes(c.invert(k), k);
    MulOne(e);
  }

  lemma ProductWithInverse(e: Scalar, s: Scalar, k: Scalar, w: Scalar)
    requires Mul(s, k) == e
    ensures Mul(e, w) == Mul(k, Mul(s, w))
  {
    MulCommutes(s, k);
    MulAssociates(k, s, w);
  }

  // Multiplying by -1 negates.
  lemma NegativeInverse(s: Scalar, k: Scalar, w: Scalar)
    requires Mul(Negate(s), w) == 1
    ensures Mul(k, Mul(s, w)) == Negate(k)
  {
    MulNegate(s, w);
    NegateTwice(Mul(s, w));
    MulCommutes(k, Mul(s, w));
    MulNegate(1, k);
    MulCommutes(1, k);
    MulOne(k);
  }

  /**
   Verification of an emitted signature gives k or -k times the generator, and the recovery bit is the
   parity of exactly that point; its x coordinate is r.
   */
  lemma SignatureVerifies(c: Curve, d: Scalar, z: Scalar, k: Scalar, w: Scalar)
    requires Sign(c, d, z, k).Some? && Lawful(c, k)
    requires Mul(Sign(c, d, z, k).value.s, w) == 1
    ensures var g := Sign(c, d, z, k).value;
            var p := Recovered(g.r, d, z, w);
            && p == (if Unnormalized(c, d, z, g.r, k) > HALF_ORDER then Negate(k) else k)
            && c.yOdd(p) == g.odd && c.x(p) == g.r
  {
    var g := Sign(c, d, z, k).value;
    var s := Unnormalized(c, d, z, g.r, k);
    RecoveredIsProduct(g.r, d, z, w);
    UnnormalizedTimesK(c, d, z, g.r, k);
    ProductWithInverse(Add(z, Mul(g.r, d)), s, k, w);
    if s > HALF_ORDER {
      NegativeInverse(s, k, w);
    } else {
      MulOne(k);
    }
  }

  lemma UnnormalizedZeroIff(c: Curve, d: Scalar, z: Scalar, r: Scalar, k: Scalar)
    requires Mul(k, c.invert(k)) == 1
    ensures Unnormalized(c, d, z, r, k) == 0 <==> Add(z, Mul(r, d)) == 0
  {
    UnnormalizedTimesK(c, d, z, r, k);
    MulZero(k);
    MulZero(c.invert(k));
  }

  /** The one bad case: s is zero exactly when z + r * d vanishes, and no step rejects it. */
  lemma ZeroSIff(c: Curve, d: Scalar, z: Scalar, k: Scalar)
    requires Sign(c, d, z, k).Some? && Mul(k, c.invert(k)) == 1
    ensures var g := Sign(c, d, z, k).value;
            g.s == 0 <==> Add(z, Mul(g.r, d)) == 0
  {
    var r := Sign(c, d, z, k).value.r;
    UnnormalizedZeroIff(c, d, z, r, k);
    NegateZeroIff(Unnormalized(c, d, z, r, k));
  }

  // For every key and nonce there is a hash whose signature has s == 0.
  lemma ZeroSHappens(c: Curve, d: Scalar, k: Scalar)
    requires c.x(k) < N && k != 0 && Mul(k, c.invert(k)) == 1
    ensures var z := Negate(Mul(c.x(k), d));
            Sign(c, d, z, k).Some? && Sign(c, d, z, k).value.s == 0
  {
    NegateZeroIff(Mul(c.x(k), d));
    ZeroSIff(c, d, Negate(Mul(c.x(k), d)), k);
  }

  // The inverses of the two nonces that are tried.
  lemma InversesOfOneAndTwo()
    ensures Mul(1, 1) == 1 && Mul(2, (N + 1) / 2) == 1
  {
  }
}
