/** The pack layout (`DFTI_PACK_FORMAT`) of the spectrum of a real signal of
    length n: n real slots holding R0, R1, I1, R2, I2, ..., and, when n is
    even, R(n/2) last. Bin i of the spectrum is its mirror bin n - i
    conjugated, so only bins 0 .. n/2 are stored. */
module PackedFormat {
  import opened Complexes

  /** The bin that the layout stores explicitly, for 0 <= 2 * i <= n:
      the DC bin, the Nyquist bin (even n only) and the lower-half pairs. */
  function Stored(p: seq<real>, i: nat): Complex
    requires 2 * i <= |p|
    requires 0 < |p|
  {
    if i == 0 then OfReal(p[0])
    else if 2 * i == |p| then OfReal(p[|p| - 1])
    else Complex(p[2 * i - 1], p[2 * i])
  }

  /** Bin i of the spectrum that `p` packs: a stored bin, or the conjugate of
      the stored bin it mirrors. */
  function Bin(p: seq<real>, i: nat): Complex
    requires i < |p|
  {
    if 2 * i <= |p| then Stored(p, i) else Conj(Stored(p, |p| - i))
  }

  /** The whole spectrum, one bin per packed slot. */
  function Unpacked(p: seq<real>): (r: seq<Complex>)
    ensures |r| == |p|
  {
    seq(|p|, i requires 0 <= i < |p| => Bin(p, i))
  }

  /** Conjugate-even (Hermitian) symmetry, indices taken modulo the length:
      bin i is the conjugate of bin n - i, and bin 0 (and bin n/2 for even n)
      is therefore real. This is what the spectrum of a real signal obeys. */
  predicate ConjugateEven(c: seq<Complex>) {
    forall i :: 0 <= i < |c| ==> MirroredAt(c, i)
  }

  /** Bin i is the conjugate of bin (n - i) mod n. */
  predicate MirroredAt(c: seq<Complex>, i: nat)
    requires i < |c|
  {
    c[i] == Conj(c[if i == 0 then 0 else |c| - i])
  }

  /** The encoder the layout describes: slot 0 holds the real part of bin 0,
      slot 2m - 1 the real part of bin m and slot 2m the imaginary part of
      bin m. */
  function Pack(c: seq<Complex>): (p: seq<real>)
    ensures |p| == |c|
  {
    seq(|c|, s requires 0 <= s < |c| =>
      if s == 0 then c[0].re
      else if s % 2 == 1 then c[(s + 1) / 2].re
      else c[s / 2].im)
  }

  /** An empty array decodes to no bins, a one-slot array to the DC bin
      alone. */
  lemma UnpackedShort(p: seq<real>)
    requires |p| <= 1
    ensures |p| == 0 ==> Unpacked(p) == []
    ensures |p| == 1 ==> Unpacked(p) == [Complex(p[0], 0.0)]
  {
  }

  /** Bin 0, the DC term, is the real number in slot 0. */
  lemma UnpackedDc(p: seq<real>)
    requires 1 <= |p|
    ensures Unpacked(p)[0] == Complex(p[0], 0.0)
  {
  }

  /** For even n the Nyquist bin n/2 is the real number in the last slot. */
  lemma UnpackedNyquist(p: seq<real>)
    requires 2 <= |p| && |p| % 2 == 0
    ensures Unpacked(p)[|p| / 2] == Complex(p[|p| - 1], 0.0)
  {
  }

  /** A bin of the lower half takes its two parts from two adjacent slots. */
  lemma UnpackedLowerHalf(p: seq<real>, i: nat)
    requires 1 <= i && 2 * i < |p|
    ensures Unpacked(p)[i] == Complex(p[2 * i - 1], p[2 * i])
  {
  }

  /** A bin of the upper half is read from the slots of its mirror bin, with
      the imaginary part negated. */
  lemma UnpackedUpperHalf(p: seq<real>, i: nat)
    requires i < |p| && |p| < 2 * i
    ensures 1 <= 2 * (|p| - i) < |p|
    ensures Unpacked(p)[i] == Complex(p[2 * (|p| - i) - 1], -p[2 * (|p| - i)])
  {
  }

  /** The decoded spectrum mirrors itself: bin i is the conjugate of bin
      n - i for 1 <= i < n, whatever the slots hold. */
  lemma UnpackedMirrors(p: seq<real>, i: nat)
    requires 1 <= i < |p|
    ensures Unpacked(p)[i] == Conj(Unpacked(p)[|p| - i])
  {
  }

  /** Hence every decoded spectrum is conjugate-even. */
  lemma UnpackedConjugateEven(p: seq<real>)
    ensures ConjugateEven(Unpacked(p))
  {
  }

  /** Decoding loses nothing: packing the decoded spectrum gives back the
      slots. */
  lemma PackUnpacked(p: seq<real>)
    ensures Pack(Unpacked(p)) == p
  {
  }

  /** Where the packing puts the two parts of a stored bin m >= 1. */
  lemma PackSlots(c: seq<Complex>, m: nat)
    requires 1 <= m && 2 * m <= |c|
    ensures Pack(c)[2 * m - 1] == c[m].re
    ensures 2 * m < |c| ==> Pack(c)[2 * m] == c[m].im
  {
  }

  /** One bin of the decoded packing of a conjugate-even spectrum. */
  lemma UnpackedPackAt(c: seq<Complex>, i: nat)
    requires ConjugateEven(c)
    requires i < |c|
    ensures Bin(Pack(c), i) == c[i]
  {
    var n := |c|;
    assert MirroredAt(c, i);
    if i == 0 {
    } else if 2 * i <= n {
      PackSlots(c, i);
    } else {
      PackSlots(c, n - i);
    }
  }

  /** Every conjugate-even spectrum is the decoding of its packing, so the
      layout can represent exactly the conjugate-even spectra. */
  lemma {:induction false} UnpackedPack(c: seq<Complex>)
    requires ConjugateEven(c)
    ensures Unpacked(Pack(c)) == c
  {
    forall i | 0 <= i < |c|
      ensures Unpacked(Pack(c))[i] == c[i]
    {
      UnpackedPackAt(c, i);
    }
  }

  /** Two packed arrays that decode to the same spectrum are equal. */
  lemma UnpackedInjective(p: seq<real>, q: seq<real>)
    requires Unpacked(p) == Unpacked(q)
    ensures p == q
  {
    PackUnpacked(p);
    PackUnpacked(q);
  }
}
