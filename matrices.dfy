/** Matrices as the values that travel over ports and that kernels wrap.
    Coefficients are kept as mathematical reals: single/double floating-point
    rounding is not part of the model, only the precision tag is. Cells are
    stored in row-major order. */
module Matrices {

  datatype Precision = Float | Double

  datatype Matrix = Matrix(precision: Precision, rows: nat, columns: nat, cells: seq<real>)
}
