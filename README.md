# Packed real-spectrum decoding of oneMKL.FFT.NET, in Dafny

oneMKL.FFT.NET is a thin C# wrapper around the DFTI Fourier-transform
interface of oneMKL. This project models the array routines of its static
`Utils` class. It covers three routines:

- `PackedRealToComplex` expands a real-domain forward transform result, stored
  in `DFTI_PACK_FORMAT`, into one complex value per frequency bin. It has a
  `double[]` overload and a `float[]` overload.
- `ToComplex` lifts real samples to complex numbers.
- `Scale` multiplies an array in place. It is the workaround the library
  offers for normalising backward transforms.

Modules:

- `Complexes` (`complexes.dfy`): the `Complex` value with exact `real` parts,
  and its conjugate.
- `ClrInt` (`clr_int.dfy`): the CLR's 32-bit `int` as a newtype. It also holds
  C#'s `<< 1` and `>> 1` on it, and the CLR's maximum array length. The
  decoding loop keeps its counter in this type, so Dafny checks every step of
  its index arithmetic for overflow.
- `PackedFormat` (`packed_format.dfy`): the pack layout as 0-based
  specification functions. `Stored` gives the DC bin, the Nyquist bin and the
  lower-half pairs. `Bin` and `Unpacked` give the whole spectrum, with the
  upper half as the conjugated mirror. `Pack` is the encoder the layout
  describes, and `ConjugateEven` is Hermitian symmetry. The lemmas give the
  closed form of every bin and show that decoding produces a conjugate-even
  spectrum. They also prove that `Unpacked` and `Pack` are inverse bijections
  between n-slot real arrays and n-bin conjugate-even spectra.
- `Utils` (`utils.dfy`): the three routines as methods over arrays.
  - The decoding loop keeps the source's 1-based counter `k`, its four-way
    branch and its shifted index expressions. It is proved equal to
    `Unpacked`.
  - Both overloads run this one generic loop. Each passes the widening it
    applies to elements (identity for `double`, `float` to `double` for
    `float`).
  - `ToComplex` is proved against `Lifted`. `Scale` is proved against
    `Scaled`. The lemmas beside them give the inverse of lifting and the
    composition and undoing of scaling.

Two edge behaviours of the code:

- A zero-length packed array decodes to an empty array (`UnpackedShort`).
- `Scale` works in place on the caller's array.

## Model

| member | source | states |
|---|---|---|
| `ClrInt.ShiftLeft1` | oneMKL.FFT.NET/Utils.cs:27 | `x << 1` on an `int` is congruent to 2x modulo 2^32, and equals 2x whenever 2x fits in 32 bits |
| `ClrInt.ShiftRight1` | oneMKL.FFT.NET/Utils.cs:29 | `x >> 1` on an `int` is the floor of x/2 |
| `PackedFormat.Unpacked` | oneMKL.FFT.NET/Utils.cs:17 | the decoded spectrum has exactly as many bins as the packed array has slots |
| `PackedFormat.UnpackedShort` | oneMKL.FFT.NET/Utils.cs:17-24 | an empty packed array decodes to no bins; a one-slot array decodes to the DC bin `(p[0], 0)` alone |
| `PackedFormat.UnpackedDc` | oneMKL.FFT.NET/Utils.cs:21-24 | for n >= 1, bin 0 is `(p[0], 0)` |
| `PackedFormat.UnpackedNyquist` | oneMKL.FFT.NET/Utils.cs:25-28 | for even n >= 2, bin n/2 is purely real and equals `(p[n-1], 0)` |
| `PackedFormat.UnpackedLowerHalf` | oneMKL.FFT.NET/Utils.cs:29-34 | for 1 <= i and 2i < n, bin i is `(p[2i-1], p[2i])` |
| `PackedFormat.UnpackedUpperHalf` | oneMKL.FFT.NET/Utils.cs:35-40 | for 2i > n, the mirror slots 2(n-i)-1 and 2(n-i) lie inside the array, and bin i is `(p[2(n-i)-1], -p[2(n-i)])` |
| `PackedFormat.UnpackedMirrors` | oneMKL.FFT.NET/Utils.cs:35-40 | for every 1 <= i < n, bin i is the conjugate of bin n-i, whatever the packed slots hold |
| `PackedFormat.UnpackedConjugateEven` | oneMKL.FFT.NET/Utils.cs:19-41 | every decoded spectrum is conjugate-even (indices mod n), so its DC bin and, for even n, its Nyquist bin are real |
| `PackedFormat.PackSlots` | oneMKL.FFT.NET/Utils.cs:31-33 | the pack layout keeps the real part of stored bin m in slot 2m-1 and, below the Nyquist bin, its imaginary part in slot 2m |
| `PackedFormat.UnpackedPackAt` | oneMKL.FFT.NET/Utils.cs:19-41 | decoding the packing of a conjugate-even spectrum gives back each of its bins |
| `PackedFormat.PackUnpacked` | oneMKL.FFT.NET/Utils.cs:19-41 | decoding loses nothing: packing the decoded spectrum gives back exactly the packed slots |
| `PackedFormat.UnpackedPack` | oneMKL.FFT.NET/Utils.cs:19-41 | every conjugate-even spectrum is the decoding of its packing, so the layout represents exactly the conjugate-even spectra |
| `PackedFormat.UnpackedInjective` | oneMKL.FFT.NET/Utils.cs:19-41 | two packed arrays that decode to the same spectrum are equal |
| `Utils.PackedToComplexWith` | oneMKL.FFT.NET/Utils.cs:15-44 | the loop as written (1-based `k`, shifts, four-way branch) returns a new array equal to `Unpacked` of the widened input; every slot it reads is in bounds and no 32-bit operation overflows |
| `Utils.PackedRealToComplex` | oneMKL.FFT.NET/Utils.cs:15-44 | the `double[]` overload returns a new array holding one bin per slot, equal to `Unpacked(packed)` |
| `Utils.PackedRealToComplexSingle` | oneMKL.FFT.NET/Utils.cs:51-80 | the `float[]` overload performs the same mapping on the values widened to `double` |
| `Utils.ToComplex` | oneMKL.FFT.NET/Utils.cs:88-98 | returns a new array of the same length whose slot i is `(data[i], 0)` |
| `Utils.RealPartsLifted` | oneMKL.FFT.NET/Utils.cs:88-98 | lifting loses nothing: the real parts of the lifted array are the input samples |
| `Utils.LiftedRealParts` | oneMKL.FFT.NET/Utils.cs:88-98 | a complex array is the lifting of a real array exactly when all its imaginary parts are zero |
| `Utils.Scale` | oneMKL.FFT.NET/Utils.cs:110-116 | the array keeps its length and every slot i becomes `old(data[i]) * scaleFactor` |
| `Utils.ScaledTwice` | oneMKL.FFT.NET/Utils.cs:110-116 | scaling by a and then by b is scaling by a*b |
| `Utils.ScaledUndoes` | oneMKL.FFT.NET/Utils.cs:104-116 | scaling by 1/n undoes a factor n != 0, which is how an unnormalised backward transform of length n is brought back to the input's amplitude |

## Left out

- `Utils.Scale`: the multiplication is exact real multiplication. The rounding of IEEE `double` multiplication is not modelled.
- `Utils.ScaledTwice`: holds for exact reals only. In `double` arithmetic, scaling by a and then by b can differ from scaling by a*b in the last bits.
- `Utils.ScaledUndoes`: holds for exact reals only. In `double` arithmetic, scaling by 1/n recovers the input only within rounding error.
- Element values are exact reals. NaN, infinities and signed zeros are not modelled. The decoder only copies, zero-fills and negates values, and widening a `float` to a `double` is exact, so no finite value is affected.
- The two C# overloads are one generic loop in the model. The `float[]` overload negates in single precision before widening, and the model widens before negating. Both orders give the same value.
- `ref double[] data` in `Scale` allows the callee to reassign the caller's variable. `Scale` never does, so the model passes the array itself.
- The decoding methods require at most `Array.MaxLength` (0x7FFFFFC7) slots, a bound the CLR imposes on every `double[]` and `float[]`. Under that bound the counter increment `k++` cannot overflow.
- The DFT itself is not modelled. The model does not prove that the engine's output is the transform of the input. Only the decoder's construction of a conjugate-even spectrum is proved.
- The descriptor wrappers in oneMKL.FFT.NET/DFTI.cs are not part of this model. They pass calls through to the native engine, plus integer constants and enums, and keep no descriptor state of their own. Their one piece of local logic is in `DftiCreateDescriptor` (oneMKL.FFT.NET/DFTI.cs:232-239): it catches any exception from the native call and returns `MKL_INTERNAL_ERROR` instead; this mapping around a foreign call is not modelled either.
- Null arrays are not modelled: Dafny arrays cannot be null. In the code, every routine throws `NullReferenceException` on a null argument when it reads its `Length` (oneMKL.FFT.NET/Utils.cs:17, :53, :90, :112); nothing checks for null first.
- oneMKL.FFT.NET/DFTINative.cs is not part of this model. It holds only foreign-function declarations of the native library.
- oneMKL.FFT.NET/ComplexF.cs is not part of this model. It is single-precision floating-point complex arithmetic (Smith's division, polar construction with `Math.Cos`/`Math.Sin`).
- Test/Program.cs is not part of this model. It is a console demonstration that needs the native engine.
