/** Complex numbers as the decoder builds them: a real part and an imaginary
    part. The decoder only copies, zero-fills and negates values, so exact
    `real` components lose nothing of its behaviour. */
module Complexes {

  datatype Complex = Complex(re: real, im: real)

  /** A purely real complex number, `new Complex(x, 0)`. */
  function OfReal(x: real): Complex {
    Complex(x, 0.0)
  }

  /** The complex conjugate. */
  function Conj(c: Complex): Complex {
    Complex(c.re, -c.im)
  }
}
