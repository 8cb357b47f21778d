/** Colours as stored in the project files (api/datastructures/FxColor.java):
    four Java `int` channels with field-wise equality and the usual
    31-polynomial hash, computed in 32-bit two's complement arithmetic. */
module FxColors {

  import opened Arithmetic

  const TwoTo31: int := 0x8000_0000
  const TwoTo32: int := 0x1_0000_0000

  /** Java `int`. */
  type Int32 = x: int | -0x8000_0000 <= x < 0x8000_0000

  /** The `int` a Java `int` expression evaluates to: the mathematical value
      reduced into the 32-bit two's complement range. */
  function Wrap(x: int): Int32 {
    (x + TwoTo31) % TwoTo32 - TwoTo31
  }

  /** Values already in range are left alone. */
  lemma WrapInRange(x: Int32)
    ensures Wrap(x) == x
  {
  }

  /** Values that differ by a multiple of 2^32 wrap to the same `int`. */
  lemma WrapShift(x: int, k: int)
    ensures Wrap(x + k * TwoTo32) == Wrap(x)
  {
    ModShift(x + TwoTo31, k, TwoTo32);
  }

  /** The channel intensities; nominally 0..255, but nothing clamps them. */
  datatype FxColor = FxColor(red: Int32, green: Int32, blue: Int32, opacity: Int32)

  /** `new FxColor(red, green, blue)`: an opaque colour. */
  function Rgb(red: Int32, green: Int32, blue: Int32): (c: FxColor)
    ensures c.opacity == 255
    ensures c.red == red && c.green == green && c.blue == blue
  {
    Rgba(red, green, blue, 255)
  }

  /** `new FxColor(red, green, blue, opacity)`: stores the values unchanged. */
  function Rgba(red: Int32, green: Int32, blue: Int32, opacity: Int32): (c: FxColor)
    ensures c.red == red && c.green == green && c.blue == blue && c.opacity == opacity
  {
    FxColor(red, green, blue, opacity)
  }

  /** One step of the hash: `31 * hash + value` as a Java `int`. */
  function HashStep(hash: Int32, value: Int32): Int32 {
    Wrap(31 * hash + value)
  }

  /** `hashCode()`: folds the four channels into the seed 17. */
  function HashCode(c: FxColor): Int32 {
    HashStep(HashStep(HashStep(HashStep(17, c.red), c.green), c.blue), c.opacity)
  }

  /** Wrapping after every step equals wrapping once at the end. */
  lemma {:induction false} HashStepWrap(x: int, value: int)
    ensures Wrap(31 * Wrap(x) + value) == Wrap(31 * x + value)
  {
    var k := (x + TwoTo31) / TwoTo32;
    assert Wrap(x) == x - k * TwoTo32;
    assert 31 * Wrap(x) + value == (31 * x + value) + (-31 * k) * TwoTo32;
    WrapShift(31 * x + value, -31 * k);
  }

  /** The hash is the polynomial ((((17*31 + r)*31 + g)*31 + b)*31 + o)
      evaluated in 32-bit wrap-around arithmetic. */
  lemma {:induction false} HashCodeClosedForm(c: FxColor)
    ensures HashCode(c) == Wrap((((17 * 31 + c.red) * 31 + c.green) * 31 + c.blue) * 31 + c.opacity)
  {
    var h1 := 17 * 31 + c.red;
    var h2 := h1 * 31 + c.green;
    var h3 := h2 * 31 + c.blue;
    WrapInRange(17);
    HashStepWrap(h1, c.green);
    HashStepWrap(h2, c.blue);
    HashStepWrap(h3, c.opacity);
  }

  /** `equals(Object)`: compares red, green, blue and opacity in turn. */
  predicate Equals(a: FxColor, b: FxColor) {
    && a.red == b.red
    && a.green == b.green
    && a.blue == b.blue
    && a.opacity == b.opacity
  }

  /** `equals` is value equality, hence an equivalence relation. */
  lemma EqualsIsValueEquality(a: FxColor, b: FxColor)
    ensures Equals(a, b) <==> a == b
  {
  }

  lemma EqualsIsEquivalence(a: FxColor, b: FxColor, c: FxColor)
    ensures Equals(a, a)
    ensures Equals(a, b) ==> Equals(b, a)
    ensures Equals(a, b) && Equals(b, c) ==> Equals(a, c)
  {
  }

  /** Equal colours have equal hashes. */
  lemma EqualColoursEqualHashes(a: FxColor, b: FxColor)
    requires Equals(a, b)
    ensures HashCode(a) == HashCode(b)
  {
  }
}
