// The values of float32 bit patterns, as far as the probability checks need them.
module Binary32 {
  import opened Floats
  import opened InferProtocol

  const SIGN_BIT := 0x8000_0000
  const ONE_BITS := 0x3F80_0000

  // Two to the power k.
  function Scale(k: int): (x: real)
    ensures x > 0.0
    decreases if k < 0 then -k else k
  {
    if k == 0 then 1.0 else if k > 0 then 2.0 * Scale(k - 1) else Scale(k + 1) / 2.0
  }

  // Exponent and fraction of the magnitude.
  function Magnitude(bits: nat): (x: real)
    requires bits < 0x7F80_0000
    ensures x >= 0.0
  {
    var exponent, fraction := bits / 0x80_0000, bits % 0x80_0000;
    if exponent == 0 then fraction as real * Scale(-149) else (0x80_0000 + fraction) as real * Scale(exponent - 150)
  }

  function FromBits(w: Word32): Float {
    var negative := w >= SIGN_BIT;
    var bits := w % SIGN_BIT;
    if bits > 0x7F80_0000 then NaN
    else if bits == 0x7F80_0000 then if negative then NegInf else PosInf
    else if negative then Fin(-Magnitude(bits)) else Fin(Magnitude(bits))
  }

  // Not a NaN, not infinite, not below zero, not above one.
  predicate IsProbability(w: Word32) {
    var x := FromBits(w);
    x.Finite() && !Less(x, Fin(0.0)) && !Less(Fin(1.0), x)
  }

  lemma {:induction false} ScaleMonotone(a: int, b: int)
    requires a <= b
    ensures Scale(a) <= Scale(b)
    decreases b - a
  {
    if a < b {
      ScaleMonotone(a, b - 1);
    }
  }

  lemma ScaleAt()
    ensures Scale(-23) * 8388608.0 == 1.0 && Scale(-24) * 16777216.0 == 1.0 && Scale(-22) * 4194304.0 == 1.0
  {
    assert Scale(-2) == 0.25;
    assert Scale(-4) * 16.0 == 1.0;
    assert Scale(-6) * 64.0 == 1.0;
    assert Scale(-8) * 256.0 == 1.0;
    assert Scale(-10) * 1024.0 == 1.0;
    assert Scale(-12) * 4096.0 == 1.0;
    assert Scale(-14) * 16384.0 == 1.0;
    assert Scale(-16) * 65536.0 == 1.0;
    assert Scale(-18) * 262144.0 == 1.0;
    assert Scale(-20) * 1048576.0 == 1.0;
    assert Scale(-22) * 4194304.0 == 1.0;
    assert Scale(-23) * 8388608.0 == 1.0;
  }

  lemma Times(a: real, b: real, c: real)
    requires a <= b && c > 0.0
    ensures a * c <= b * c
  {
  }

  lemma TimesStrictly(a: real, b: real, c: real)
    requires a < b && c > 0.0
    ensures a * c < b * c
  {
  }

  lemma Sign(x: real, s: real)
    requires x >= 0.0 && s > 0.0
    ensures x * s > 0.0 <==> x > 0.0
  {
  }

  // x * s against 1, where s is at most, exactly or at least one over the top.
  lemma AtMostOne(x: real, s: real, top: real)
    requires x <= top && s > 0.0 && top * s <= 1.0
    ensures x * s <= 1.0
  {
    calc {
      x * s;
    <= { Times(x, top, s); }
      top * s;
    <=
      1.0;
    }
  }

  lemma AboveTop(x: real, s: real, top: real)
    requires x > top && s > 0.0 && top * s >= 1.0
    ensures x * s > 1.0
  {
    calc {
      1.0;
    <=
      top * s;
    <  { TimesStrictly(top, x, s); }
      x * s;
    }
  }

  lemma Subnormal(fraction: nat)
    requires fraction < 0x80_0000
    ensures fraction as real * Scale(-149) <= 1.0
    ensures fraction as real * Scale(-149) == 0.0 <==> fraction == 0
  {
    hide Scale;
    assert 16777216.0 * Scale(-149) <= 1.0 by {
      ScaleAt();
      ScaleMonotone(-149, -24);
    }
    AtMostOne(fraction as real, Scale(-149), 16777216.0);
    Sign(fraction as real, Scale(-149));
  }

  lemma BelowOne(exponent: nat, fraction: nat)
    requires 1 <= exponent <= 126 && fraction < 0x80_0000
    ensures 0.0 < (0x80_0000 + fraction) as real * Scale(exponent - 150) <= 1.0
  {
    hide Scale;
    var significand := (0x80_0000 + fraction) as real;
    assert 16777216.0 * Scale(exponent - 150) <= 1.0 by {
      ScaleAt();
      ScaleMonotone(exponent - 150, -24);
    }
    AtMostOne(significand, Scale(exponent - 150), 16777216.0);
    Sign(significand, Scale(exponent - 150));
  }

  lemma FromOne(fraction: nat)
    requires fraction < 0x80_0000
    ensures 0.0 < (0x80_0000 + fraction) as real * Scale(-23)
    ensures (0x80_0000 + fraction) as real * Scale(-23) <= 1.0 <==> fraction == 0
  {
    hide Scale;
    var significand := (0x80_0000 + fraction) as real;
    assert 8388608.0 * Scale(-23) == 1.0 by {
      ScaleAt();
    }
    Sign(significand, Scale(-23));
    if fraction > 0 {
      AboveTop(significand, Scale(-23), 8388608.0);
    } else {
      AtMostOne(significand, Scale(-23), 8388608.0);
    }
  }

  lemma AboveOne(exponent: nat, fraction: nat)
    requires exponent >= 128 && fraction < 0x80_0000
    ensures (0x80_0000 + fraction) as real * Scale(exponent - 150) > 1.0
  {
    hide Scale;
    assert 4194304.0 * Scale(exponent - 150) >= 1.0 by {
      ScaleAt();
      ScaleMonotone(-22, exponent - 150);
    }
    AboveTop((0x80_0000 + fraction) as real, Scale(exponent - 150), 4194304.0);
  }

  // At most one exactly up to the bits of one, and zero exactly for zero bits.
  lemma MagnitudeOrder(bits: nat)
    requires bits < 0x7F80_0000
    ensures Magnitude(bits) <= 1.0 <==> bits <= ONE_BITS
    ensures Magnitude(bits) == 0.0 <==> bits == 0
  {
    hide Scale;
    var exponent, fraction := bits / 0x80_0000, bits % 0x80_0000;
    if exponent == 0 {
      Subnormal(fraction);
    } else if exponent <= 126 {
      BelowOne(exponent, fraction);
    } else if exponent == 127 {
      FromOne(fraction);
    } else {
      AboveOne(exponent, fraction);
    }
  }

  // The accepted probabilities are the bit patterns up to that of one, and minus zero.
  lemma ProbabilityBits(w: Word32)
    ensures IsProbability(w) <==> w <= ONE_BITS || w == SIGN_BIT
  {
    var bits := w % SIGN_BIT;
    if bits < 0x7F80_0000 {
      MagnitudeOrder(bits);
    }
    hide Magnitude;
  }
}
