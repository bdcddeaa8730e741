/** The sign-magnitude little-endian numbers of Arkade Script. */
module ScriptNumber {
  import opened Common

  /** Unsigned little-endian value of a byte string. */
  function LittleEndian(b: Bytes): nat {
    if b == [] then 0 else b[0] + 256 * LittleEndian(b[1..])
  }

  // ----- sign-magnitude numbers -----

  /** Magnitude of a non-empty script number: the top bit of the last byte is the sign. */
  function Magnitude(b: Bytes): nat
    requires b != []
  {
    if |b| == 1 then b[0] % 128 else b[0] + 256 * Magnitude(b[1..])
  }

  predicate Negative(b: Bytes)
    requires b != []
  {
    b[|b| - 1] >= 128
  }

  /** BIN2NUM: the integer a byte string denotes. */
  function Decode(b: Bytes): int {
    if b == [] then 0
    else
      var m: int := Magnitude(b);
      if Negative(b) then -m else m
  }

  function EncodeMagnitude(m: nat, negative: bool): (b: Bytes)
    requires m > 0
    ensures b != []
  {
    var sign := if negative then 128 else 0;
    if m < 128 then [m + sign]
    else [m % 256] + if m < 256 then [sign] else EncodeMagnitude(m / 256, negative)
  }

  /** The shortest byte string that denotes `n`. */
  function Encode(n: int): Bytes {
    if n == 0 then [] else if n < 0 then EncodeMagnitude(-n, true) else EncodeMagnitude(n, false)
  }

  /** A stack element that numeric opcodes accept: no redundant last byte. */
  predicate Minimal(b: Bytes) {
    b == [] || b[|b| - 1] % 128 != 0 || (|b| > 1 && b[|b| - 2] >= 128)
  }

  function Zeros(n: nat): (z: Bytes)
    ensures |z| == n && forall i :: 0 <= i < n ==> z[i] == 0
  {
    seq(n, _ => 0)
  }

  /** NUM2BIN: widen the shortest encoding to `size` bytes, moving the sign bit to the last byte. */
  function ToFixedWidth(n: int, size: nat): Option<Bytes> {
    var short := Encode(n);
    if |short| > size then None
    else if |short| == size then Some(short)
    else if short == [] then Some(Zeros(size))
    else
      var last := short[|short| - 1];
      var sign := if last >= 128 then 128 else 0;
      Some(short[..|short| - 1] + [last % 128] + Zeros(size - |short| - 1) + [sign])
  }

  lemma {:induction false} EncodedMagnitudeDecodes(m: nat, negative: bool)
    requires m > 0
    ensures var b := EncodeMagnitude(m, negative);
            Magnitude(b) == m && Negative(b) == negative && Minimal(b)
  {
    if m >= 256 {
      EncodedMagnitudeDecodes(m / 256, negative);
      var b, rest := EncodeMagnitude(m, negative), EncodeMagnitude(m / 256, negative);
      assert b[1..] == rest;
      if |rest| > 1 { assert b[|b| - 2] == rest[|rest| - 2]; }
    } else if m >= 128 {
      var b := EncodeMagnitude(m, negative);
      assert b[1..] == [if negative then 128 else 0];
    }
  }

  /** Encoding then decoding is the identity on every integer, and encodings are minimal. */
  lemma EncodeDecode(n: int)
    ensures Decode(Encode(n)) == n && Minimal(Encode(n))
  {
    if n != 0 { EncodedMagnitudeDecodes(if n < 0 then -n else n, n < 0); }
  }

  lemma Encodings()
    ensures forall n {:trigger Encode(n)} :: Decode(Encode(n)) == n && Minimal(Encode(n))
  {
    forall n ensures Decode(Encode(n)) == n && Minimal(Encode(n)) { EncodeDecode(n); }
  }

  lemma {:induction false} MagnitudeInjective(a: Bytes, b: Bytes)
    requires |a| == |b| > 0 && Magnitude(a) == Magnitude(b) && Negative(a) == Negative(b)
    ensures a == b
  {
    if |a| > 1 {
      assert a[0] == Magnitude(a) % 256 && b[0] == Magnitude(b) % 256;
      MagnitudeInjective(a[1..], b[1..]);
      assert a == [a[0]] + a[1..] && b == [b[0]] + b[1..];
    }
  }

  /** Among strings of one width only zero has two encodings. */
  lemma DecodeInjective(a: Bytes, b: Bytes)
    requires |a| == |b| > 0 && Decode(a) == Decode(b) && (Negative(a) == Negative(b) || Decode(a) != 0)
    ensures a == b
  {
    MagnitudeInjective(a, b);
  }

  lemma {:induction false} ShortestMagnitude(b: Bytes, negative: bool)
    requires b != [] && Magnitude(b) > 0
    ensures |EncodeMagnitude(Magnitude(b), negative)| <= |b|
  {
    if |b| > 1 && Magnitude(b[1..]) > 0 {
      ShortestMagnitude(b[1..], negative);
      assert Magnitude(b) / 256 == Magnitude(b[1..]);
    }
  }

  /** Byte strings accepted by numeric opcodes are exactly the encoder's outputs. */
  lemma MinimalIsEncoding(b: Bytes)
    ensures Minimal(b) <==> b == Encode(Decode(b))
  {
    EncodeDecode(Decode(b));
    if Minimal(b) && b != [] { MinimalNonzero(b); MinimalMagnitude(b); }
  }

  lemma {:induction false} MinimalNonzero(b: Bytes)
    requires b != [] && Minimal(b)
    ensures Magnitude(b) > 0
  {
    if |b| == 2 {
      assert Magnitude(b) == b[0] + 256 * Magnitude(b[1..]);
    } else if |b| > 2 {
      assert b[1..][|b| - 2] == b[|b| - 1] && b[1..][|b| - 3] == b[|b| - 2];
      MinimalNonzero(b[1..]);
    }
  }

  lemma {:induction false} MinimalMagnitude(b: Bytes)
    requires b != [] && Minimal(b) && Magnitude(b) > 0
    ensures EncodeMagnitude(Magnitude(b), Negative(b)) == b
  {
    if |b| == 2 {
      assert Magnitude(b) == b[0] + 256 * Magnitude(b[1..]);
      assert b == [b[0]] + b[1..];
    } else if |b| > 2 {
      assert b[1..][|b| - 2] == b[|b| - 1] && b[1..][|b| - 3] == b[|b| - 2];
      MinimalNonzero(b[1..]);
      MinimalMagnitude(b[1..]);
      assert Magnitude(b) / 256 == Magnitude(b[1..]) && Magnitude(b) % 256 == b[0];
      assert b == [b[0]] + b[1..];
    }
  }

  lemma {:induction false} MagnitudePadded(a: Bytes, zeros: nat, sign: byte)
    requires sign == 0 || sign == 128
    requires a != [] ==> a[|a| - 1] < 128
    ensures Magnitude(a + Zeros(zeros) + [sign]) == if a == [] then 0 else Magnitude(a)
  {
    var p := a + Zeros(zeros) + [sign];
    if a == [] {
      if zeros > 0 {
        assert p[1..] == a + Zeros(zeros - 1) + [sign];
        MagnitudePadded(a, zeros - 1, sign);
      }
    } else {
      assert p[1..] == a[1..] + Zeros(zeros) + [sign];
      MagnitudePadded(a[1..], zeros, sign);
    }
  }

  lemma {:induction false} MagnitudeClearsSign(b: Bytes)
    requires b != []
    ensures Magnitude(b) == Magnitude(b[..|b| - 1] + [b[|b| - 1] % 128])
  {
    var c := b[..|b| - 1] + [b[|b| - 1] % 128];
    if |b| > 1 {
      assert c[1..] == b[1..][..|b| - 2] + [b[1..][|b| - 2] % 128];
      MagnitudeClearsSign(b[1..]);
    }
  }

  /** NUM2BIN keeps the value, and writes zero without a sign bit. */
  lemma FixedWidthDecodes(n: int, size: nat)
    requires ToFixedWidth(n, size).Some?
    ensures var p := ToFixedWidth(n, size).value;
            |p| == size && Decode(p) == n && (n == 0 && size > 0 ==> !Negative(p))
  {
    EncodeDecode(n);
    var short := Encode(n);
    if short == [] {
      if size > 0 {
        assert Zeros(size) == [] + Zeros(size - 1) + [0];
        MagnitudePadded([], size - 1, 0);
      }
    } else if |short| < size {
      var last := short[|short| - 1];
      MagnitudeClearsSign(short);
      MagnitudePadded(short[..|short| - 1] + [last % 128], size - |short| - 1,
                      if last >= 128 then 128 else 0);
    }
  }

  /** The only string of a width that `BIN2NUM; NUM2BIN` does not give back is negative zero. */
  lemma FixedWidthRoundTrip(p: Bytes)
    requires p != []
    ensures ToFixedWidth(Decode(p), |p|).Some?
    ensures ToFixedWidth(Decode(p), |p|) == Some(p) <==> !(Decode(p) == 0 && Negative(p))
  {
    if Magnitude(p) > 0 { ShortestMagnitude(p, Negative(p)); }
    FixedWidthDecodes(Decode(p), |p|);
    var q := ToFixedWidth(Decode(p), |p|).value;
    if !(Decode(p) == 0 && Negative(p)) { DecodeInjective(p, q); }
  }

  /** A zero sign byte makes any byte string denote its unsigned value. */
  lemma {:induction false} UnsignedDecode(b: Bytes)
    ensures Decode(b + [0]) == LittleEndian(b)
  {
    var p := b + [0];
    if b != [] {
      UnsignedDecode(b[1..]);
      assert p[1..] == b[1..] + [0];
    }
  }

  lemma {:induction false} LittleEndianInjective(a: Bytes, b: Bytes)
    requires |a| == |b| && LittleEndian(a) == LittleEndian(b)
    ensures a == b
  {
    if a != [] {
      assert a[0] == LittleEndian(a) % 256 && b[0] == LittleEndian(b) % 256;
      LittleEndianInjective(a[1..], b[1..]);
      assert a == [a[0]] + a[1..] && b == [b[0]] + b[1..];
    }
  }
}
