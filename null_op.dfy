/** The identity image operation (imaging/ops/NullOp.java): it creates
    destinations compatible with a source and copies every sample of the
    source raster into the destination. Samples are indexed by column, row
    and band. */
module NullOps {

  import opened Wrappers
  import Kernels

  /** A colour model, as far as the operation needs it: how many bands a
      raster made for it has. */
  datatype ColorModel = ColorModel(bands: nat, alphaPremultiplied: bool)

  /** What kind of image: a buffered matrix (with its sample data type and
      interleave), a buffered image of a common type (type code not 0), or a
      buffered image of a custom type (type code 0). */
  datatype ImageKind =
    | BufferedMatrix(sampleType: int, interleave: int)
    | Typed(imageType: int)
    | Custom

  class Image {
    const width: nat
    const height: nat
    const bands: nat
    const kind: ImageKind
    const colorModel: ColorModel
    /** The raster: `samples[col, row, band]`. */
    const samples: array3<int>

    /** The raster has the size of the image and as many bands as the
        colour model. */
    ghost predicate Valid()
      reads this
    {
      && samples.Length0 == width && samples.Length1 == height && samples.Length2 == bands
      && colorModel.bands == bands
    }

    /** A new image with a zeroed raster. */
    constructor (width: nat, height: nat, bands: nat, kind: ImageKind, colorModel: ColorModel)
      requires colorModel.bands == bands
      ensures Valid() && fresh(samples)
      ensures this.width == width && this.height == height && this.bands == bands
      ensures this.kind == kind && this.colorModel == colorModel
      ensures forall c, r, b :: 0 <= c < width && 0 <= r < height && 0 <= b < bands ==> samples[c, r, b] == 0
    {
      this.width := width;
      this.height := height;
      this.bands := bands;
      this.kind := kind;
      this.colorModel := colorModel;
      samples := new int[width, height, bands]((c, r, b) => 0);
    }
  }

  /** The raster of `dst` has room for every sample of `src`. */
  predicate Covers(dst: Image, src: Image) {
    src.width <= dst.width && src.height <= dst.height && src.bands <= dst.bands
  }

  /** (c, r, b) is a sample of the image. */
  predicate InRaster(img: Image, c: int, r: int, b: int) {
    0 <= c < img.width && 0 <= r < img.height && 0 <= b < img.bands
  }

  /** `createCompatibleDestImage(src, dstCM)`: a zeroed image of the size
      of the source. A buffered matrix gets a matrix with the same bands,
      sample type and interleave; an image of a common type gets an image of
      that type; any other image gets a raster made for `dstCM`. */
  method CreateCompatibleDestImage(src: Image, dstCM: ColorModel) returns (d: Image)
    requires src.Valid()
    ensures fresh(d) && fresh(d.samples) && d.Valid()
    ensures d.width == src.width && d.height == src.height
    ensures src.kind.BufferedMatrix? || src.kind.Typed? ==>
      d.kind == src.kind && d.bands == src.bands && d.colorModel == src.colorModel
    ensures src.kind.Custom? ==> d.kind == Custom && d.colorModel == dstCM && d.bands == dstCM.bands
    ensures forall c, r, b :: InRaster(d, c, r, b) ==> d.samples[c, r, b] == 0
  {
    match src.kind
    case BufferedMatrix(_, _) =>
      d := new Image(src.width, src.height, src.bands, src.kind, src.colorModel);
    case Typed(_) =>
      d := new Image(src.width, src.height, src.bands, src.kind, src.colorModel);
    case Custom =>
      d := new Image(src.width, src.height, dstCM.bands, Custom, dstCM);
  }

  /** `createCompatibleDestImage(bounds, dstCM)`: a zeroed custom image of
      the size of the bounds, with a raster made for `dstCM`. */
  method CreateCompatibleDestImageOfBounds(bounds: Kernels.Rectangle, dstCM: ColorModel) returns (d: Image)
    requires bounds.width >= 0 && bounds.height >= 0
    ensures fresh(d) && fresh(d.samples) && d.Valid()
    ensures d.width == bounds.width && d.height == bounds.height && d.bands == dstCM.bands
    ensures d.kind == Custom && d.colorModel == dstCM
    ensures forall c, r, b :: InRaster(d, c, r, b) ==> d.samples[c, r, b] == 0
  {
    d := new Image(bounds.width, bounds.height, dstCM.bands, Custom, dstCM);
  }

  /** `createCompatibleDestMatrix(bounds, src)`: a zeroed matrix with the
      width and height of the bounds and the bands, sample type and
      interleave of the source matrix. */
  method CreateCompatibleDestMatrix(bounds: Kernels.Rectangle, src: Image) returns (d: Image)
    requires src.Valid() && src.kind.BufferedMatrix?
    requires bounds.width >= 0 && bounds.height >= 0
    ensures fresh(d) && fresh(d.samples) && d.Valid()
    ensures d.width == bounds.width && d.height == bounds.height && d.bands == src.bands
    ensures d.kind == src.kind && d.colorModel == src.colorModel
    ensures forall c, r, b :: InRaster(d, c, r, b) ==> d.samples[c, r, b] == 0
  {
    d := new Image(bounds.width, bounds.height, src.bands, src.kind, src.colorModel);
  }

  /** Copies the samples of every band at (col, row). */
  method CopyPixel(src: Image, dst: Image, col: nat, row: nat)
    requires src.Valid() && dst.Valid() && Covers(dst, src)
    requires col < src.width && row < src.height
    modifies dst.samples
    ensures forall b :: 0 <= b < src.bands ==> dst.samples[col, row, b] == old(src.samples[col, row, b])
    ensures forall c, r, b :: InRaster(dst, c, r, b) && (c != col || r != row || b >= src.bands) ==>
      dst.samples[c, r, b] == old(dst.samples[c, r, b])
    ensures forall c, r, b :: InRaster(src, c, r, b) ==> src.samples[c, r, b] == old(src.samples[c, r, b])
  {
    var band := 0;
    while band < src.bands
      invariant 0 <= band <= src.bands
      invariant forall b :: 0 <= b < band ==> dst.samples[col, row, b] == old(src.samples[col, row, b])
      invariant forall c, r, b :: InRaster(dst, c, r, b) && (c != col || r != row || b >= band) ==>
        dst.samples[c, r, b] == old(dst.samples[c, r, b])
      invariant forall c, r, b :: InRaster(src, c, r, b) ==> src.samples[c, r, b] == old(src.samples[c, r, b])
    {
      dst.samples[col, row, band] := src.samples[col, row, band];
      band := band + 1;
    }
  }

  /** Copies every sample of the row. */
  method CopyRow(src: Image, dst: Image, row: nat)
    requires src.Valid() && dst.Valid() && Covers(dst, src)
    requires row < src.height
    modifies dst.samples
    ensures forall c, b :: 0 <= c < src.width && 0 <= b < src.bands ==> dst.samples[c, row, b] == old(src.samples[c, row, b])
    ensures forall c, r, b :: InRaster(dst, c, r, b) && (r != row || c >= src.width || b >= src.bands) ==>
      dst.samples[c, r, b] == old(dst.samples[c, r, b])
    ensures forall c, r, b :: InRaster(src, c, r, b) ==> src.samples[c, r, b] == old(src.samples[c, r, b])
  {
    var col := 0;
    while col < src.width
      invariant 0 <= col <= src.width
      invariant forall c, b :: 0 <= c < col && 0 <= b < src.bands ==> dst.samples[c, row, b] == old(src.samples[c, row, b])
      invariant forall c, r, b :: InRaster(dst, c, r, b) && (r != row || c >= col || b >= src.bands) ==>
        dst.samples[c, r, b] == old(dst.samples[c, r, b])
      invariant forall c, r, b :: InRaster(src, c, r, b) ==> src.samples[c, r, b] == old(src.samples[c, r, b])
    {
      CopyPixel(src, dst, col, row);
      col := col + 1;
    }
  }

  /** The scan of `filter`: every sample of the source raster is copied to
      the same place in the destination; the rest of the destination is
      left as it was. */
  method CopyRaster(src: Image, dst: Image)
    requires src.Valid() && dst.Valid() && Covers(dst, src)
    modifies dst.samples
    ensures forall c, r, b :: InRaster(src, c, r, b) ==> dst.samples[c, r, b] == old(src.samples[c, r, b])
    ensures forall c, r, b :: InRaster(dst, c, r, b) && !InRaster(src, c, r, b) ==>
      dst.samples[c, r, b] == old(dst.samples[c, r, b])
  {
    var row := 0;
    while row < src.height
      invariant 0 <= row <= src.height
      invariant forall c, r, b :: InRaster(src, c, r, b) && r < row ==> dst.samples[c, r, b] == old(src.samples[c, r, b])
      invariant forall c, r, b :: InRaster(dst, c, r, b) && (r >= row || !InRaster(src, c, r, b)) ==>
        dst.samples[c, r, b] == old(dst.samples[c, r, b])
      invariant forall c, r, b :: InRaster(src, c, r, b) ==> src.samples[c, r, b] == old(src.samples[c, r, b])
    {
      CopyRow(src, dst, row);
      row := row + 1;
    }
  }

  /** `filter(src, dst)`: without a destination a compatible one is created
      first; every sample of the source is copied into the destination,
      which is returned. */
  method Filter(src: Image, dst: Option<Image>) returns (r: Image)
    requires src.Valid()
    requires dst.Some? ==> dst.value.Valid() && Covers(dst.value, src)
    modifies if dst.Some? then {dst.value.samples} else {}
    ensures r.Valid() && Covers(r, src)
    ensures dst.Some? ==> r == dst.value
    ensures dst.None? ==> fresh(r) && fresh(r.samples) && r.width == src.width && r.height == src.height
    ensures forall c, row, b :: InRaster(src, c, row, b) ==> r.samples[c, row, b] == old(src.samples[c, row, b])
    ensures forall c, row, b :: InRaster(r, c, row, b) && !InRaster(src, c, row, b) ==>
      r.samples[c, row, b] == (if dst.Some? then old(r.samples[c, row, b]) else 0)
  {
    if dst.None? {
      r := CreateCompatibleDestImage(src, src.colorModel);
    } else {
      r := dst.value;
    }
    CopyRaster(src, r);
  }

  /** A point of the plane. */
  class Point {
    var x: real
    var y: real

    constructor (x: real, y: real)
      ensures this.x == x && this.y == y
    {
      this.x := x;
      this.y := y;
    }
  }

  /** `getPoint2D(src, dst)`: the identity on points. Without a destination
      the result is a copy of the source; otherwise the destination is moved
      to the source and returned. */
  method GetPoint2D(src: Point, dst: Option<Point>) returns (r: Point)
    modifies if dst.Some? then {dst.value} else {}
    ensures r.x == old(src.x) && r.y == old(src.y)
    ensures dst.Some? ==> r == dst.value
    ensures dst.None? ==> fresh(r)
  {
    if dst.None? {
      r := new Point(src.x, src.y);
    } else {
      r := dst.value;
      r.x, r.y := src.x, src.y;
    }
  }
}
