/** The matrix editor processor (awt/tools/MatrixEditor.java): a matrix of
    cell expressions whose dimensions are parameters, published as a float
    and as a double matrix on two output ports, optionally scaled by a
    multiplier. The evaluation of the cell expressions is a parameter. */
module MatrixEditors {

  import opened Wrappers
  import opened Matrices
  import Ports

  /** The dimension parameters range over 1..64 and start at 3. */
  const MinDimension := 1
  const MaxRows := 64
  const MaxColumns := MaxRows
  const DefaultSize := 3

  /** The data types of the two output ports. */
  const FloatMatrixType := "FloatMatrix"
  const DoubleMatrixType := "DoubleMatrix"

  /** The content of a cell of a newly created string matrix. */
  const EmptyCell := ""

  /** A matrix of cell expressions, in row-major order. */
  datatype StringMatrix = StringMatrix(rows: nat, columns: nat, cells: seq<string>)

  ghost predicate Shaped(a: StringMatrix) {
    |a.cells| == a.rows * a.columns
  }

  /** `new StringMatrix(m, n)`: an m x n matrix of empty cells. */
  function NewStringMatrix(m: nat, n: nat): (a: StringMatrix)
    ensures a.rows == m && a.columns == n && Shaped(a)
  {
    StringMatrix(m, n, seq(m * n, _ => EmptyCell))
  }

  /** What the dimension listener does to the matrix: it is replaced by a
      new one exactly when its dimensions differ from the parameters. */
  function Resized(a: StringMatrix, m: nat, n: nat): StringMatrix {
    if a.rows != m || a.columns != n then NewStringMatrix(m, n) else a
  }

  /** After the listener the matrix has exactly the requested dimensions. */
  lemma ResizedHasDimensions(a: StringMatrix, m: nat, n: nat)
    requires Shaped(a)
    ensures Resized(a, m, n).rows == m && Resized(a, m, n).columns == n && Shaped(Resized(a, m, n))
  {
  }

  /** The listener keeps the matrix exactly when its dimensions already
      match. */
  lemma ResizedKeepsMatching(a: StringMatrix, m: nat, n: nat)
    ensures Resized(a, m, n) == a <==> a.rows == m && a.columns == n
  {
  }

  /** Running the listener twice is the same as running it once. */
  lemma ResizedIdempotent(a: StringMatrix, m: nat, n: nat)
    ensures Resized(Resized(a, m, n), m, n) == Resized(a, m, n)
  {
  }

  /** `getFloatMatrix()` / `getDoubleMatrix()`: every cell expression
      evaluated, at the given precision. */
  function Evaluate(a: StringMatrix, p: Precision, value: string -> real): (r: Matrix)
    ensures r.precision == p && r.rows == a.rows && r.columns == a.columns
    ensures |r.cells| == |a.cells| && forall i :: 0 <= i < |a.cells| ==> r.cells[i] == value(a.cells[i])
  {
    Matrix(p, a.rows, a.columns, seq(|a.cells|, i requires 0 <= i < |a.cells| => value(a.cells[i])))
  }

  /** `multiply(k)`: every cell times `k`. */
  function Scale(m: Matrix, k: real): (r: Matrix)
    ensures r.precision == m.precision && r.rows == m.rows && r.columns == m.columns
    ensures |r.cells| == |m.cells| && forall i :: 0 <= i < |m.cells| ==> r.cells[i] == k * m.cells[i]
  {
    Matrix(m.precision, m.rows, m.columns, seq(|m.cells|, i requires 0 <= i < |m.cells| => k * m.cells[i]))
  }

  /** Scaling by 1 changes nothing. */
  lemma ScaleByOne(m: Matrix)
    ensures Scale(m, 1.0) == m
  {
    assert Scale(m, 1.0).cells == m.cells;
  }

  /** The matrix published at precision `p`: the multiplier is applied only
      when it is not 1. */
  function OutputMatrix(a: StringMatrix, p: Precision, value: string -> real, multiplier: real): Matrix {
    if multiplier != 1.0 then Scale(Evaluate(a, p, value), multiplier) else Evaluate(a, p, value)
  }

  /** Skipping the multiplication for a multiplier of 1 is only a shortcut:
      the published matrix is always the evaluated matrix times the
      multiplier. */
  lemma OutputMatrixIsScaled(a: StringMatrix, p: Precision, value: string -> real, multiplier: real)
    ensures OutputMatrix(a, p, value, multiplier) == Scale(Evaluate(a, p, value), multiplier)
  {
    if multiplier == 1.0 {
      ScaleByOne(Evaluate(a, p, value));
    }
  }

  class MatrixEditor {
    const outputFloat: Ports.Port
    const outputDouble: Ports.Port
    /** The evaluation of a cell expression. */
    const value: string -> real
    var rows: int
    var columns: int
    var matrix: StringMatrix
    var multiplier: real
    /** Whether `init` attached the dimension listener, and the matrix
        listener. */
    var dimensionListener: bool
    var matrixListener: bool

    /** Two distinct output ports of the two matrix types, dimensions within
        their bounds, and a well-shaped matrix. */
    ghost predicate Valid()
      reads this, outputFloat, outputDouble
    {
      && outputFloat != outputDouble
      && outputFloat.Valid() && outputFloat.direction == Ports.Output && outputFloat.dataType == FloatMatrixType
      && outputDouble.Valid() && outputDouble.direction == Ports.Output && outputDouble.dataType == DoubleMatrixType
      && MinDimension <= rows <= MaxRows && MinDimension <= columns <= MaxColumns
      && Shaped(matrix)
    }

    /** Every connected output, and every port connected to it, holds the
        current matrix at the output's precision. */
    ghost predicate Serving()
      reads this, outputFloat, outputDouble, outputFloat.connections, outputDouble.connections
    {
      && (outputFloat.IsConnected() ==>
            && outputFloat.payload == Some(OutputMatrix(matrix, Float, value, multiplier))
            && outputFloat.state == Ports.Ready
            && forall q :: q in outputFloat.connections ==> q.state == Ports.Ready)
      && (outputDouble.IsConnected() ==>
            && outputDouble.payload == Some(OutputMatrix(matrix, Double, value, multiplier))
            && outputDouble.state == Ports.Ready
            && forall q :: q in outputDouble.connections ==> q.state == Ports.Ready)
    }

    constructor (value: string -> real)
      ensures Valid()
      ensures fresh(outputFloat) && fresh(outputDouble) && this.value == value
      ensures rows == DefaultSize && columns == DefaultSize && matrix == NewStringMatrix(DefaultSize, DefaultSize)
      ensures multiplier == 1.0 && !dimensionListener && !matrixListener
      ensures !outputFloat.IsConnected() && !outputDouble.IsConnected()
    {
      outputFloat := new Ports.Port(Ports.Output, FloatMatrixType, false);
      outputDouble := new Ports.Port(Ports.Output, DoubleMatrixType, false);
      this.value := value;
      rows := DefaultSize;
      columns := DefaultSize;
      matrix := NewStringMatrix(DefaultSize, DefaultSize);
      multiplier := 1.0;
      dimensionListener := false;
      matrixListener := false;
    }

    /** `setOutputs`: each connected output publishes the matrix at its
        precision; an output without connections is left untouched. */
    method SetOutputs()
      requires Valid()
      modifies outputFloat, outputDouble, outputFloat.connections, outputDouble.connections
      ensures Valid() && Serving()
      ensures outputFloat.connections == old(outputFloat.connections)
      ensures outputDouble.connections == old(outputDouble.connections)
      ensures !outputFloat.IsConnected() ==> unchanged(outputFloat)
      ensures !outputDouble.IsConnected() ==> unchanged(outputDouble)
    {
      var doMultiply := multiplier != 1.0;
      if outputFloat.IsConnected() {
        var fmat := if doMultiply then Scale(Evaluate(matrix, Float, value), multiplier) else Evaluate(matrix, Float, value);
        outputFloat.SetOutput(fmat);
      }
      if outputDouble.IsConnected() {
        var dmat := if doMultiply then Scale(Evaluate(matrix, Double, value), multiplier) else Evaluate(matrix, Double, value);
        outputDouble.SetOutput(dmat);
      }
    }

    /** The matrix listener: republishes whenever the matrix is set. */
    method OnMatrixChanged()
      requires Valid()
      modifies outputFloat, outputDouble, outputFloat.connections, outputDouble.connections
      ensures Valid()
      ensures outputFloat.connections == old(outputFloat.connections)
      ensures outputDouble.connections == old(outputDouble.connections)
      ensures matrixListener ==> Serving()
      ensures !matrixListener ==> unchanged(outputFloat, outputDouble)
    {
      if matrixListener {
        SetOutputs();
      }
    }

    /** The dimension listener: replaces the matrix by an empty one of the
        parameter dimensions when they differ, which notifies the matrix
        listener. */
    method OnDimensionsChanged()
      requires Valid()
      modifies this, outputFloat, outputDouble, outputFloat.connections, outputDouble.connections
      ensures Valid()
      ensures matrix == Resized(old(matrix), rows, columns)
      ensures matrix.rows == rows && matrix.columns == columns
      ensures rows == old(rows) && columns == old(columns) && multiplier == old(multiplier)
      ensures dimensionListener == old(dimensionListener) && matrixListener == old(matrixListener)
      ensures outputFloat.connections == old(outputFloat.connections)
      ensures outputDouble.connections == old(outputDouble.connections)
      ensures matrix != old(matrix) && matrixListener ==> Serving()
      ensures matrix == old(matrix) || !matrixListener ==> unchanged(outputFloat, outputDouble)
    {
      var m, n := rows, columns;
      var a := matrix;
      if a.rows != m || a.columns != n {
        matrix := NewStringMatrix(m, n);
        OnMatrixChanged();
      }
    }

    /** Sets the `rows` parameter, within its bounds; a new value notifies
        the dimension listener if it is attached. */
    method SetRows(m: int)
      requires Valid() && MinDimension <= m <= MaxRows
      modifies this, outputFloat, outputDouble, outputFloat.connections, outputDouble.connections
      ensures Valid()
      ensures rows == m && columns == old(columns) && multiplier == old(multiplier)
      ensures dimensionListener == old(dimensionListener) && matrixListener == old(matrixListener)
      ensures dimensionListener && m != old(rows) ==> matrix == Resized(old(matrix), rows, columns)
      ensures !(dimensionListener && m != old(rows)) ==> matrix == old(matrix)
      ensures outputFloat.connections == old(outputFloat.connections)
      ensures outputDouble.connections == old(outputDouble.connections)
      ensures matrix != old(matrix) && matrixListener ==> Serving()
      ensures matrix == old(matrix) || !matrixListener ==> unchanged(outputFloat, outputDouble)
    {
      if m != rows {
        rows := m;
        if dimensionListener {
          OnDimensionsChanged();
        }
      }
    }

    /** Sets the `columns` parameter; the counterpart of `SetRows`. */
    method SetColumns(n: int)
      requires Valid() && MinDimension <= n <= MaxColumns
      modifies this, outputFloat, outputDouble, outputFloat.connections, outputDouble.connections
      ensures Valid()
      ensures columns == n && rows == old(rows) && multiplier == old(multiplier)
      ensures dimensionListener == old(dimensionListener) && matrixListener == old(matrixListener)
      ensures dimensionListener && n != old(columns) ==> matrix == Resized(old(matrix), rows, columns)
      ensures !(dimensionListener && n != old(columns)) ==> matrix == old(matrix)
      ensures outputFloat.connections == old(outputFloat.connections)
      ensures outputDouble.connections == old(outputDouble.connections)
      ensures matrix != old(matrix) && matrixListener ==> Serving()
      ensures matrix == old(matrix) || !matrixListener ==> unchanged(outputFloat, outputDouble)
    {
      if n != columns {
        columns := n;
        if dimensionListener {
          OnDimensionsChanged();
        }
      }
    }

    /** Sets the matrix parameter, which notifies the matrix listener. */
    method SetMatrix(a: StringMatrix)
      requires Valid() && Shaped(a)
      modifies this, outputFloat, outputDouble, outputFloat.connections, outputDouble.connections
      ensures Valid()
      ensures matrix == a && rows == old(rows) && columns == old(columns) && multiplier == old(multiplier)
      ensures dimensionListener == old(dimensionListener) && matrixListener == old(matrixListener)
      ensures outputFloat.connections == old(outputFloat.connections)
      ensures outputDouble.connections == old(outputDouble.connections)
      ensures matrixListener ==> Serving()
      ensures !matrixListener ==> unchanged(outputFloat, outputDouble)
    {
      matrix := a;
      OnMatrixChanged();
    }

    /** `init`: attaches the dimension listener; only with a context are the
        outputs set and the matrix listener attached. */
    method Init(hasContext: bool)
      requires Valid()
      modifies this, outputFloat, outputDouble, outputFloat.connections, outputDouble.connections
      ensures Valid()
      ensures dimensionListener && matrixListener == (old(matrixListener) || hasContext)
      ensures rows == old(rows) && columns == old(columns) && matrix == old(matrix) && multiplier == old(multiplier)
      ensures outputFloat.connections == old(outputFloat.connections)
      ensures outputDouble.connections == old(outputDouble.connections)
      ensures hasContext ==> Serving()
      ensures !hasContext ==> unchanged(outputFloat, outputDouble)
    {
      dimensionListener := true;
      if hasContext {
        SetOutputs();
        matrixListener := true;
      }
    }
  }
}
