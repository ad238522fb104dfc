/** The static helpers of the FFT wrapper: decoding a packed real spectrum
    into one complex value per bin, lifting real samples to complex numbers,
    and scaling an array in place. */
module Utils {
  import opened Complexes
  import opened ClrInt
  import opened PackedFormat

  /** A single-precision sample. Every `float` is exactly representable as a
      `double`, so widening it keeps its value. */
  newtype Float32 = real

  function WidenSingle(x: Float32): real {
    x as real
  }

  /** The element values of a packed array, widened to `double`. */
  function Widened<T>(s: seq<T>, widen: T -> real): (r: seq<real>)
    ensures |r| == |s|
  {
    seq(|s|, i requires 0 <= i < |s| => widen(s[i]))
  }

  /** The decoding loop shared by both overloads, written with the same
      1-based counter `k`, the same four-way branch and the same shifted
      index arithmetic; `widen` turns an element into the `double` handed to
      the `Complex` constructor. The array accesses are checked, so every
      slot read lies in [0, n), and the 32-bit arithmetic on `k` is checked
      not to overflow. */
  method PackedToComplexWith<T>(packed: array<T>, widen: T -> real) returns (complex: array<Complex>)
    requires packed.Length <= MaxArrayLength
    ensures fresh(complex)
    ensures complex[..] == Unpacked(Widened(packed[..], widen))
  {
    ghost var p := Widened(packed[..], widen);
    var n := packed.Length as int32;
    complex := new Complex[packed.Length];
    var k: int32 := 1;
    while k <= n
      invariant 1 <= k <= n + 1
      invariant forall j :: 0 <= j < k - 1 ==> complex[j] == Bin(p, j as nat)
    {
      if k == 1 {
        complex[k - 1] := Complex(widen(packed[k - 1]), 0.0);
      } else if k - 1 == n - k + 1 {
        complex[k - 1] := Complex(widen(packed[ShiftLeft1(k - 1) - 1]), 0.0);
      } else if k <= ShiftRight1(n) + 1 {
        complex[k - 1] := Complex(
          widen(packed[(ShiftLeft1(k - 1) + 0) - 1]),
          widen(packed[(ShiftLeft1(k - 1) + 1) - 1]));
      } else {
        complex[k - 1] := Complex(
          widen(packed[(ShiftLeft1(n - k + 1) + 0) - 1]),
          -1.0 * widen(packed[(ShiftLeft1(n - k + 1) + 1) - 1]));
      }
      k := k + 1;
    }
  }

  /** `PackedRealToComplex(double[])`: one complex bin per packed slot. */
  method PackedRealToComplex(packed: array<real>) returns (complex: array<Complex>)
    requires packed.Length <= MaxArrayLength
    ensures fresh(complex)
    ensures complex[..] == Unpacked(packed[..])
  {
    complex := PackedToComplexWith(packed, x => x);
    assert Widened(packed[..], x => x) == packed[..];
  }

  /** `PackedRealToComplex(float[])`: the same mapping on widened values. */
  method PackedRealToComplexSingle(packed: array<Float32>) returns (complex: array<Complex>)
    requires packed.Length <= MaxArrayLength
    ensures fresh(complex)
    ensures complex[..] == Unpacked(Widened(packed[..], WidenSingle))
  {
    complex := PackedToComplexWith(packed, WidenSingle);
  }

  /** The real samples as complex numbers with zero imaginary part. */
  function Lifted(data: seq<real>): seq<Complex> {
    seq(|data|, i requires 0 <= i < |data| => OfReal(data[i]))
  }

  /** The real parts of a complex array. */
  function RealParts(c: seq<Complex>): seq<real> {
    seq(|c|, i requires 0 <= i < |c| => c[i].re)
  }

  /** `ToComplex(double[])`: a new array of the same length, slot i holding
      `(data[i], 0)`. */
  method ToComplex(data: array<real>) returns (result: array<Complex>)
    ensures fresh(result)
    ensures result.Length == data.Length
    ensures result[..] == Lifted(data[..])
  {
    result := new Complex[data.Length];
    var i := 0;
    while i < data.Length
      invariant 0 <= i <= data.Length
      invariant forall j :: 0 <= j < i ==> result[j] == Complex(data[j], 0.0)
    {
      result[i] := Complex(data[i], 0.0);
      i := i + 1;
    }
  }

  /** Lifting loses nothing: the real parts give back the samples. */
  lemma RealPartsLifted(data: seq<real>)
    ensures RealParts(Lifted(data)) == data
  {
  }

  /** A complex array is a lifted real array exactly when every imaginary
      part is zero. */
  lemma LiftedRealParts(c: seq<Complex>)
    ensures Lifted(RealParts(c)) == c <==> forall i :: 0 <= i < |c| ==> c[i].im == 0.0
  {
  }

  /** Every element multiplied by `factor`. */
  function Scaled(s: seq<real>, factor: real): (r: seq<real>)
    ensures |r| == |s|
  {
    seq(|s|, i requires 0 <= i < |s| => s[i] * factor)
  }

  /** `Scale(ref double[], double)`: multiplies every element in place; the
      array keeps its length and identity. */
  method Scale(data: array<real>, scaleFactor: real)
    modifies data
    ensures data[..] == Scaled(old(data[..]), scaleFactor)
  {
    var i := 0;
    while i < data.Length
      invariant 0 <= i <= data.Length
      invariant forall j :: 0 <= j < i ==> data[j] == old(data[j]) * scaleFactor
      invariant forall j :: i <= j < data.Length ==> data[j] == old(data[j])
    {
      data[i] := data[i] * scaleFactor;
      i := i + 1;
    }
    assert forall j :: 0 <= j < data.Length ==> data[..][j] == Scaled(old(data[..]), scaleFactor)[j];
  }

  /** Scaling twice is scaling once by the product of the factors. */
  lemma {:induction false} ScaledTwice(s: seq<real>, a: real, b: real)
    ensures Scaled(Scaled(s, a), b) == Scaled(s, a * b)
  {
    forall i | 0 <= i < |s|
      ensures Scaled(Scaled(s, a), b)[i] == Scaled(s, a * b)[i]
    {
      assert (s[i] * a) * b == s[i] * (a * b);
    }
  }

  /** The normalisation the scale factor is meant for: output that carries a
      factor n != 0 (an unnormalised backward transform of length n) is
      brought back by scaling with 1 / n. */
  lemma {:induction false} ScaledUndoes(s: seq<real>, n: real)
    requires n != 0.0
    ensures Scaled(Scaled(s, n), 1.0 / n) == s
  {
    forall i | 0 <= i < |s|
      ensures Scaled(Scaled(s, n), 1.0 / n)[i] == s[i]
    {
      assert (s[i] * n) * (1.0 / n) == s[i] * (n * (1.0 / n));
      assert n * (1.0 / n) == 1.0;
    }
  }
}
